/**
 The cancellation token tree: cancelling, reading the reason, registering wake
 handles and waiting, by any number of threads, one atomic access per step.

 Tokens are numbered so that a parent's number is below its child's, and the tree
 is fixed: a token created late is a token nobody has touched yet. Each mutex
 critical section that only reads or only pushes is one step; the section in which
 cancelling rechecks the chain is several, with the lock held in between.
 */
module CancellationTokens {
  import opened Options
  import opened Runs
  import opened CancellationReasons

  type Token = nat
  type ThreadId = nat
  type Handle = nat

  /** The parent of each token. */
  type Tree = parents: seq<Option<Token>> | forall x :: 0 <= x < |parents| && parents[x].Some? ==> parents[x].value < x
    witness []

  /** `direct` records that the flag was turned on by the swap in cancel, not by
      caching an ancestor's flag; no code reads it. */
  datatype Node = Node(
    flag: bool,
    direct: bool,
    reason: Option<Reason>,
    lock: Option<ThreadId>,
    handles: seq<Handle>,
    escalation: Option<Reason>)

  const FRESH := Node(false, false, None, None, [], None)

  /** What a call to is_cancelled is for. */
  datatype Call =
    | ToObserve
    | ToCancel(reason: Reason, goal: Option<Reason>)
    | ToRecheck(reason: Reason, goal: Option<Reason>)
    | ToRead(goal: Option<Reason>)
    | ToRegister(h: Handle)
    | ToWait
    | ToSleep
    | ToLeave

  /** Program counters. `tok` is the token an operation was called on and `at` the
      node of its parent chain it has reached. A `goal` is the failure an escalate
      will record once its inner cancel is over. */
  datatype Pc =
    | Ready
    // is_cancelled and check_ancestors
    | Walk(tok: Token, at: Token, call: Call)
    | Caching(tok: Token, call: Call)
    // cancel_with_reason
    | Locking(tok: Token, reason: Reason, goal: Option<Reason>)
    | Writing(tok: Token, reason: Reason, goal: Option<Reason>)
    | Unlocking(tok: Token, goal: Option<Reason>)
    | Swapping(tok: Token, goal: Option<Reason>)
    // notification, by cancel or escalate
    | Collecting(tok: Token, goal: Option<Reason>)
    | Notifying(tok: Token, rest: seq<Handle>, goal: Option<Reason>)
    // reason, and escalate after it
    | Reading(tok: Token, at: Token, goal: Option<Reason>)
    | Escalating(tok: Token, failure: Reason)
    // register
    | Pushing(tok: Token, at: Token, h: Handle)
    | Checking(tok: Token, at: Token, h: Handle)
    | Alerting(tok: Token, at: Token, h: Handle)
    | LastAlert(tok: Token, h: Handle)
    // cancelled_async
    | Enabling(tok: Token, at: Token)
    | Probing(tok: Token, at: Token)
    | Asleep(tok: Token)

  /** `waiting` holds the enabled notifications not yet delivered, `woken` the
      waiters one was delivered to, `notified` the handles notified since their
      registration began, `owner` the token each handle was registered on and `dead`
      the weakly held handles that are gone. */
  datatype State = State(
    nodes: seq<Node>,
    threads: map<ThreadId, Pc>,
    waiting: set<(Token, ThreadId)>,
    woken: set<ThreadId>,
    notified: set<Handle>,
    owner: map<Handle, Token>,
    dead: set<Handle>)

  function Initial(tree: Tree): State {
    State(seq(|tree|, _ => FRESH), map[], {}, {}, {}, map[], {})
  }

  function At(s: State, th: ThreadId): Pc {
    if th in s.threads then s.threads[th] else Ready
  }

  // ---------------------------------------------------------------------------
  // Where calls lead
  // ---------------------------------------------------------------------------

  /** The end of cancel_with_reason: escalate goes on only with a failure. */
  function AfterCancel(tok: Token, goal: Option<Reason>): Pc {
    if goal.Some? && IsFailure(goal.value) then Walk(tok, tok, ToRead(goal)) else Ready
  }

  /** The end of reason: escalate goes on unless the first reason is a failure. */
  function AfterReason(tok: Token, goal: Option<Reason>, first: Option<Reason>): Pc {
    if goal.Some? && !(first.Some? && IsFailure(first.value)) then Escalating(tok, goal.value) else Ready
  }

  function NextPush(tree: Tree, tok: Token, at: Token, h: Handle): Pc
    requires at < |tree|
  {
    if tree[at].Some? then Pushing(tok, tree[at].value, h) else Walk(tok, tok, ToRegister(h))
  }

  function NextEnable(tree: Tree, tok: Token, at: Token): Pc
    requires at < |tree|
  {
    if tree[at].Some? then Enabling(tok, tree[at].value) else Asleep(tok)
  }

  /** What the caller of is_cancelled does with the answer. */
  function Resolve(tree: Tree, tok: Token, call: Call, answer: bool): Pc
    requires tok < |tree|
  {
    match call
    case ToObserve => Ready
    case ToCancel(reason, goal) => if answer then AfterCancel(tok, goal) else Locking(tok, reason, goal)
    case ToRecheck(reason, goal) => if answer then Unlocking(tok, goal) else Writing(tok, reason, goal)
    case ToRead(goal) => if answer then Reading(tok, tok, goal) else AfterReason(tok, goal, None)
    case ToRegister(h) => if answer then LastAlert(tok, h) else Ready
    case ToWait => if answer then Ready else Enabling(tok, tok)
    case ToSleep => if answer then Ready else NextEnable(tree, tok, tok)
    case ToLeave => if answer then Ready else Enabling(tok, tok)
  }

  // ---------------------------------------------------------------------------
  // Moves
  // ---------------------------------------------------------------------------

  datatype CheckMove = Load | Cache
  datatype CancelMove =
    | Cancel(tok: Token, reason: Reason)
    | Escalate(tok: Token, failure: Reason)
    | Lock
    | Write
    | Unlock
    | Swap
  datatype NotifyMove = Collect | NotifyNext | NotifyWaiters
  datatype ReadMove = Observe(tok: Token) | Read(tok: Token) | ReadNode | SetEscalation
  datatype RegisterMove =
    | Register(h: Handle, tok: Token)
    | Push(kept: seq<Handle>)
    | CheckNode
    | Alert
    | AlertLast
    | DropHandle(h: Handle)
  datatype WaitMove = Wait(tok: Token) | Enable | Probe | WakeUp

  datatype Step =
    | OfCheck(th: ThreadId, c: CheckMove)
    | OfCancel(th: ThreadId, m: CancelMove)
    | OfNotify(th: ThreadId, n: NotifyMove)
    | OfRead(th: ThreadId, r: ReadMove)
    | OfRegister(th: ThreadId, g: RegisterMove)
    | OfWait(th: ThreadId, w: WaitMove)

  function Goto(s: State, th: ThreadId, pc: Pc): State {
    s.(threads := s.threads[th := pc])
  }

  function SetNode(s: State, x: Token, node: Node): State
    requires x < |s.nodes|
  {
    s.(nodes := s.nodes[x := node])
  }

  /** The waiter drops the notifications it had enabled. */
  function Forget(s: State, th: ThreadId): State {
    s.(waiting := (set p | p in s.waiting && p.1 != th), woken := s.woken - {th})
  }

  predicate InTree(tree: Tree, s: State, x: Token) { x < |tree| && |s.nodes| == |tree| }

  predicate CheckEnabled(tree: Tree, s: State, th: ThreadId, c: CheckMove) {
    var pc := At(s, th);
    match c
    case Load => pc.Walk? && InTree(tree, s, pc.tok) && InTree(tree, s, pc.at)
    case Cache => pc.Caching? && InTree(tree, s, pc.tok)
  }

  function Answer(tree: Tree, s: State, th: ThreadId, tok: Token, call: Call, answer: bool): State
    requires tok < |tree|
  {
    Goto(if call.ToSleep? && answer then Forget(s, th) else s, th, Resolve(tree, tok, call, answer))
  }

  function CheckApply(tree: Tree, s: State, th: ThreadId, c: CheckMove): State
    requires CheckEnabled(tree, s, th, c)
  {
    var pc := At(s, th);
    match c
    case Load =>
      if s.nodes[pc.at].flag then
        if pc.at == pc.tok then Answer(tree, s, th, pc.tok, pc.call, true) else Goto(s, th, Caching(pc.tok, pc.call))
      else if tree[pc.at].Some? then Goto(s, th, Walk(pc.tok, tree[pc.at].value, pc.call))
      else Answer(tree, s, th, pc.tok, pc.call, false)
    case Cache => Answer(tree, SetNode(s, pc.tok, s.nodes[pc.tok].(flag := true)), th, pc.tok, pc.call, true)
  }

  predicate CancelEnabled(tree: Tree, s: State, th: ThreadId, m: CancelMove) {
    var pc := At(s, th);
    match m
    case Cancel(tok, _) => pc.Ready? && InTree(tree, s, tok)
    case Escalate(tok, _) => pc.Ready? && InTree(tree, s, tok)
    case Lock => pc.Locking? && InTree(tree, s, pc.tok) && s.nodes[pc.tok].lock.None?
    case Write => pc.Writing? && InTree(tree, s, pc.tok)
    case Unlock => pc.Unlocking? && InTree(tree, s, pc.tok)
    case Swap => pc.Swapping? && InTree(tree, s, pc.tok)
  }

  function CancelApply(tree: Tree, s: State, th: ThreadId, m: CancelMove): State
    requires CancelEnabled(tree, s, th, m)
  {
    var pc := At(s, th);
    match m
    case Cancel(tok, reason) => Goto(s, th, Walk(tok, tok, ToCancel(reason, None)))
    case Escalate(tok, failure) => Goto(s, th, Walk(tok, tok, ToCancel(failure, Some(failure))))
    case Lock =>
      Goto(SetNode(s, pc.tok, s.nodes[pc.tok].(lock := Some(th))), th,
           Walk(pc.tok, pc.tok, ToRecheck(pc.reason, pc.goal)))
    case Write =>
      var node := s.nodes[pc.tok];
      var reason := if node.reason.None? then Some(pc.reason) else node.reason;
      Goto(SetNode(s, pc.tok, node.(reason := reason, lock := None)), th, Swapping(pc.tok, pc.goal))
    case Unlock => Goto(SetNode(s, pc.tok, s.nodes[pc.tok].(lock := None)), th, AfterCancel(pc.tok, pc.goal))
    case Swap =>
      if s.nodes[pc.tok].flag then Goto(s, th, AfterCancel(pc.tok, pc.goal))
      else Goto(SetNode(s, pc.tok, s.nodes[pc.tok].(flag := true, direct := true)), th, Collecting(pc.tok, pc.goal))
  }

  predicate NotifyEnabled(tree: Tree, s: State, th: ThreadId, n: NotifyMove) {
    var pc := At(s, th);
    match n
    case Collect => pc.Collecting? && InTree(tree, s, pc.tok)
    case NotifyNext => pc.Notifying? && pc.rest != []
    case NotifyWaiters => pc.Notifying? && pc.rest == []
  }

  /** The registrations whose handles can still be upgraded. */
  function Live(handles: seq<Handle>, dead: set<Handle>): seq<Handle> {
    if handles == [] then []
    else (if handles[0] in dead then [] else [handles[0]]) + Live(handles[1..], dead)
  }

  function NotifyApply(tree: Tree, s: State, th: ThreadId, n: NotifyMove): State
    requires NotifyEnabled(tree, s, th, n)
  {
    var pc := At(s, th);
    match n
    case Collect => Goto(s, th, Notifying(pc.tok, Live(s.nodes[pc.tok].handles, s.dead), pc.goal))
    case NotifyNext => Goto(s.(notified := s.notified + {pc.rest[0]}), th, Notifying(pc.tok, pc.rest[1..], pc.goal))
    case NotifyWaiters =>
      var reached := set p | p in s.waiting && p.0 == pc.tok;
      Goto(s.(waiting := s.waiting - reached, woken := s.woken + (set p | p in reached :: p.1)), th,
           AfterCancel(pc.tok, pc.goal))
  }

  predicate ReadEnabled(tree: Tree, s: State, th: ThreadId, r: ReadMove) {
    var pc := At(s, th);
    match r
    case Observe(tok) => pc.Ready? && InTree(tree, s, tok)
    case Read(tok) => pc.Ready? && InTree(tree, s, tok)
    case ReadNode => pc.Reading? && InTree(tree, s, pc.at) && s.nodes[pc.at].lock.None?
    case SetEscalation => pc.Escalating? && InTree(tree, s, pc.tok)
  }

  function ReadApply(tree: Tree, s: State, th: ThreadId, r: ReadMove): State
    requires ReadEnabled(tree, s, th, r)
  {
    var pc := At(s, th);
    match r
    case Observe(tok) => Goto(s, th, Walk(tok, tok, ToObserve))
    case Read(tok) => Goto(s, th, Walk(tok, tok, ToRead(None)))
    case ReadNode =>
      var reason := s.nodes[pc.at].reason;
      Goto(s, th, if reason.None? && tree[pc.at].Some?
                  then Reading(pc.tok, tree[pc.at].value, pc.goal)
                  else AfterReason(pc.tok, pc.goal, reason))
    case SetEscalation =>
      if s.nodes[pc.tok].escalation.Some? then Goto(s, th, Ready)
      else Goto(SetNode(s, pc.tok, s.nodes[pc.tok].(escalation := Some(pc.failure))), th, Collecting(pc.tok, None))
  }

  /** WakeRegistrations::push may drop the registrations of dead handles. */
  predicate KeepsLive(handles: seq<Handle>, dead: set<Handle>, kept: seq<Handle>) {
    && (forall h :: h in kept ==> h in handles)
    && (forall h :: h in handles && h !in dead ==> h in kept)
  }

  /** The handle is being registered. */
  predicate Registers(pc: Pc, h: Handle) {
    || ((pc.Pushing? || pc.Checking? || pc.Alerting? || pc.LastAlert?) && pc.h == h)
    || (pc.Walk? && pc.call == ToRegister(h))
    || (pc.Caching? && pc.call == ToRegister(h))
  }

  predicate RegisterEnabled(tree: Tree, s: State, th: ThreadId, g: RegisterMove) {
    var pc := At(s, th);
    match g
    case Register(h, tok) => pc.Ready? && h !in s.owner && InTree(tree, s, tok)
    case Push(kept) => pc.Pushing? && InTree(tree, s, pc.at) && KeepsLive(s.nodes[pc.at].handles, s.dead, kept)
    case CheckNode => pc.Checking? && InTree(tree, s, pc.at)
    case Alert => pc.Alerting? && InTree(tree, s, pc.at)
    case AlertLast => pc.LastAlert?
    case DropHandle(h) => pc.Ready? && h in s.owner && forall x :: x in s.threads ==> !Registers(s.threads[x], h)
  }

  function RegisterApply(tree: Tree, s: State, th: ThreadId, g: RegisterMove): State
    requires RegisterEnabled(tree, s, th, g)
  {
    var pc := At(s, th);
    match g
    case Register(h, tok) => Goto(s.(owner := s.owner[h := tok]), th, Pushing(tok, tok, h))
    case Push(kept) =>
      Goto(SetNode(s, pc.at, s.nodes[pc.at].(handles := kept + [pc.h])), th, Checking(pc.tok, pc.at, pc.h))
    case CheckNode =>
      Goto(s, th, if s.nodes[pc.at].flag then Alerting(pc.tok, pc.at, pc.h) else NextPush(tree, pc.tok, pc.at, pc.h))
    case Alert => Goto(s.(notified := s.notified + {pc.h}), th, NextPush(tree, pc.tok, pc.at, pc.h))
    case AlertLast => Goto(s.(notified := s.notified + {pc.h}), th, Ready)
    case DropHandle(h) => Goto(s.(dead := s.dead + {h}), th, Ready)
  }

  predicate WaitEnabled(tree: Tree, s: State, th: ThreadId, w: WaitMove) {
    var pc := At(s, th);
    match w
    case Wait(tok) => pc.Ready? && InTree(tree, s, tok)
    case Enable => pc.Enabling? && InTree(tree, s, pc.at)
    case Probe => pc.Probing? && InTree(tree, s, pc.at)
    case WakeUp => (pc.Asleep? || (pc.Enabling? && pc.at != pc.tok)) && th in s.woken
  }

  function WaitApply(tree: Tree, s: State, th: ThreadId, w: WaitMove): State
    requires WaitEnabled(tree, s, th, w)
  {
    var pc := At(s, th);
    match w
    case Wait(tok) => Goto(s, th, Walk(tok, tok, ToWait))
    case Enable =>
      Goto(s.(waiting := s.waiting + {(pc.at, th)}), th,
           if pc.at == pc.tok then Walk(pc.tok, pc.tok, ToSleep) else Probing(pc.tok, pc.at))
    case Probe =>
      if s.nodes[pc.at].flag then Goto(Forget(s, th), th, Walk(pc.tok, pc.tok, ToLeave))
      else Goto(s, th, NextEnable(tree, pc.tok, pc.at))
    case WakeUp => Goto(Forget(s, th), th, Walk(pc.tok, pc.tok, ToLeave))
  }

  predicate Enabled(tree: Tree, s: State, step: Step) {
    match step
    case OfCheck(th, c) => CheckEnabled(tree, s, th, c)
    case OfCancel(th, m) => CancelEnabled(tree, s, th, m)
    case OfNotify(th, n) => NotifyEnabled(tree, s, th, n)
    case OfRead(th, r) => ReadEnabled(tree, s, th, r)
    case OfRegister(th, g) => RegisterEnabled(tree, s, th, g)
    case OfWait(th, w) => WaitEnabled(tree, s, th, w)
  }

  function Apply(tree: Tree, s: State, step: Step): State
    requires Enabled(tree, s, step)
  {
    match step
    case OfCheck(th, c) => CheckApply(tree, s, th, c)
    case OfCancel(th, m) => CancelApply(tree, s, th, m)
    case OfNotify(th, n) => NotifyApply(tree, s, th, n)
    case OfRead(th, r) => ReadApply(tree, s, th, r)
    case OfRegister(th, g) => RegisterApply(tree, s, th, g)
    case OfWait(th, w) => WaitApply(tree, s, th, w)
  }

  function Next(tree: Tree): (State, Step, State) -> bool {
    (s, step, s') => Enabled(tree, s, step) && s' == Apply(tree, s, step)
  }

  /** A run over one tree. */
  ghost predicate IsRun(tree: Tree, states: seq<State>, steps: seq<Step>) {
    && |states| == |steps| + 1
    && states[0] == Initial(tree)
    && Linked(Next(tree), states, steps, 0, |steps|)
  }

  // ---------------------------------------------------------------------------
  // What the chain above a token says
  // ---------------------------------------------------------------------------

  /** `y` is `x` or one of its ancestors. */
  predicate Above(tree: Tree, x: Token, y: Token) {
    x < |tree| && (y == x || (tree[x].Some? && Above(tree, tree[x].value, y)))
  }

  /** The token or an ancestor has its flag on: is_cancelled, read at one instant. */
  predicate Cancelled(tree: Tree, nodes: seq<Node>, x: Token)
    requires |nodes| == |tree|
  {
    x < |tree| && (nodes[x].flag || (tree[x].Some? && Cancelled(tree, nodes, tree[x].value)))
  }

  /** The token or an ancestor was cancelled itself. */
  predicate Caused(tree: Tree, nodes: seq<Node>, x: Token)
    requires |nodes| == |tree|
  {
    x < |tree| && (nodes[x].direct || (tree[x].Some? && Caused(tree, nodes, tree[x].value)))
  }
}
