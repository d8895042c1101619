/**
 Reasons never change once seen: what every interleaving over every token tree
 keeps, and what any two readers of one token can therefore observe.
 */
module CancellationStability {
  import opened Options
  import opened CancellationReasons
  import opened CancellationTokens

  // ---------------------------------------------------------------------------
  // Settled tokens
  // ---------------------------------------------------------------------------

  /** The thread is inside cancel's critical section on `x`. */
  predicate HoldsLock(pc: Pc, x: Token) {
    || (pc.Walk? && pc.tok == x && pc.call.ToRecheck?)
    || (pc.Caching? && pc.tok == x && pc.call.ToRecheck?)
    || (pc.Writing? && pc.tok == x)
    || (pc.Unlocking? && pc.tok == x)
  }

  /** The thread holding `x`'s lock will find the token cancelled and write nothing. */
  predicate WillWithdraw(tree: Tree, nodes: seq<Node>, pc: Pc, x: Token)
    requires |nodes| == |tree|
  {
    HoldsLock(pc, x) && !pc.Writing? && (pc.Walk? ==> Cancelled(tree, nodes, pc.at))
  }

  /** `x` is cancelled, has no reason of its own, and will never have one. */
  predicate Frozen(tree: Tree, s: State, x: Token)
    requires |s.nodes| == |tree|
  {
    && x < |tree|
    && s.nodes[x].reason.None?
    && Cancelled(tree, s.nodes, x)
    && (s.nodes[x].lock.None? || WillWithdraw(tree, s.nodes, At(s, s.nodes[x].lock.value), x))
  }

  /** Every node from `x` up to, and not including, `y` is frozen. */
  predicate FrozenBelow(tree: Tree, s: State, x: Token, y: Token)
    requires |s.nodes| == |tree|
  {
    x < |tree| && (x == y || (Frozen(tree, s, x) && tree[x].Some? && FrozenBelow(tree, s, tree[x].value, y)))
  }

  /** The reason reason() reports on `x` is, and stays, `r`. */
  predicate Decided(tree: Tree, s: State, x: Token, r: Reason)
    requires |s.nodes| == |tree|
  {
    x < |tree| &&
    if s.nodes[x].reason.Some? then s.nodes[x].reason.value == r
    else Frozen(tree, s, x) && tree[x].Some? && Decided(tree, s, tree[x].value, r)
  }

  // ---------------------------------------------------------------------------
  // The invariant
  // ---------------------------------------------------------------------------

  ghost predicate NodeOk(tree: Tree, s: State, x: Token)
    requires |s.nodes| == |tree| && x < |tree|
  {
    var node := s.nodes[x];
    && (node.flag ==> Caused(tree, s.nodes, x))
    && (node.direct ==> node.flag && node.reason.Some?)
    && (node.lock.Some? ==> HoldsLock(At(s, node.lock.value), x))
    && (node.escalation.Some? ==> IsFailure(node.escalation.value) && Overruled(tree, s, x))
  }

  /** `x` was cancelled for a requested stop. */
  ghost predicate Overruled(tree: Tree, s: State, x: Token)
    requires |s.nodes| == |tree|
  {
    Cancelled(tree, s.nodes, x) && exists r :: Decided(tree, s, x, r) && !IsFailure(r)
  }

  /** What a thread at `pc` knows; other threads' steps keep it true. */
  ghost predicate PcOk(tree: Tree, s: State, th: ThreadId, pc: Pc)
    requires |s.nodes| == |tree|
  {
    && (pc.Walk? || pc.Pushing? || pc.Checking? || pc.Alerting? || pc.Enabling? || pc.Probing? || pc.Reading? ==>
          Above(tree, pc.tok, pc.at))
    && (pc.LastAlert? || pc.Asleep? ==> pc.tok < |tree|)
    && (pc.Walk? ==> CallOk(tree, s, pc.at, pc.call))
    && (pc.Caching? ==> Caused(tree, s.nodes, pc.tok) && CallOk(tree, s, pc.tok, pc.call))
    && (pc.Swapping? ==> pc.tok < |tree| && s.nodes[pc.tok].reason.Some?)
    && (pc.Unlocking? || pc.Collecting? || pc.Notifying? || pc.Alerting? || pc.LastAlert? ==>
          Caused(tree, s.nodes, pc.tok))
    && (pc.Reading? ==> FrozenBelow(tree, s, pc.tok, pc.at) && Caused(tree, s.nodes, pc.at) && GoalOk(pc.goal))
    && (pc.Escalating? ==> IsFailure(pc.failure) && Overruled(tree, s, pc.tok))
    && (forall x: Token :: HoldsLock(pc, x) ==> x < |tree| && s.nodes[x].lock == Some(th))
  }

  predicate GoalOk(goal: Option<Reason>) { goal.Some? ==> IsFailure(goal.value) }

  /** escalate reads the reason of a token it knows to be cancelled. */
  predicate CallOk(tree: Tree, s: State, at: Token, call: Call)
    requires |s.nodes| == |tree|
  {
    call.ToRead? && call.goal.Some? ==> IsFailure(call.goal.value) && Caused(tree, s.nodes, at)
  }

  ghost predicate Inv(tree: Tree, s: State) {
    && |s.nodes| == |tree|
    && (forall x :: 0 <= x < |tree| ==> NodeOk(tree, s, x))
    && (forall th :: PcOk(tree, s, th, At(s, th)))
  }

  // ---------------------------------------------------------------------------
  // The chain
  // ---------------------------------------------------------------------------

  lemma {:induction false} AboveUp(tree: Tree, x: Token, y: Token)
    requires Above(tree, x, y) && y < |tree| && tree[y].Some?
    ensures Above(tree, x, tree[y].value)
    decreases x
  {
    if y != x { AboveUp(tree, tree[x].value, y); }
  }

  lemma {:induction false} AboveInTree(tree: Tree, x: Token, y: Token)
    requires Above(tree, x, y)
    ensures y <= x < |tree|
    decreases x
  {
    if y != x { AboveInTree(tree, tree[x].value, y); }
  }

  /** A cause above `y` is a cause above `x`. */
  lemma {:induction false} CauseBelow(tree: Tree, nodes: seq<Node>, x: Token, y: Token)
    requires |nodes| == |tree| && Above(tree, x, y)
    ensures Caused(tree, nodes, y) ==> Caused(tree, nodes, x)
    ensures Cancelled(tree, nodes, y) ==> Cancelled(tree, nodes, x)
    decreases x
  {
    if y != x { CauseBelow(tree, nodes, tree[x].value, y); }
  }

  /** Flags have causes, so a cancelled token was cancelled, itself or above. */
  lemma {:induction false} CancelledIsCaused(tree: Tree, nodes: seq<Node>, x: Token)
    requires |nodes| == |tree|
    requires forall z :: 0 <= z < |tree| && nodes[z].flag ==> Caused(tree, nodes, z)
    requires forall z :: 0 <= z < |tree| && nodes[z].direct ==> nodes[z].flag
    ensures Cancelled(tree, nodes, x) <==> Caused(tree, nodes, x)
    decreases x
  {
    if x < |tree| && tree[x].Some? { CancelledIsCaused(tree, nodes, tree[x].value); }
  }

  // ---------------------------------------------------------------------------
  // What no step undoes
  // ---------------------------------------------------------------------------

  /** From `s` to `s'`, only `th` moves, flags only turn on, a reason is written
      once, locks of others stay, and frozen nodes stay frozen. */
  ghost predicate Evolves(tree: Tree, s: State, th: ThreadId, s': State) {
    && |s.nodes| == |tree| == |s'.nodes|
    && s'.threads == s.threads[th := At(s', th)]
    && (forall x :: 0 <= x < |tree| ==> NodeEvolves(s.nodes[x], th, s'.nodes[x]))
    && (forall x: Token :: Frozen(tree, s, x) ==> Frozen(tree, s', x))
  }

  predicate NodeEvolves(node: Node, th: ThreadId, node': Node) {
    && (node.flag ==> node'.flag)
    && (node.direct ==> node'.direct)
    && (node.reason.Some? ==> node'.reason == node.reason)
    && (node.lock.Some? && node.lock != Some(th) ==> node'.lock == node.lock)
    && (node'.lock.Some? ==> node'.lock == Some(th) || node'.lock == node.lock)
    && (node.escalation.Some? ==> node'.escalation == node.escalation)
  }

  lemma {:induction false} ChainGrows(tree: Tree, nodes: seq<Node>, nodes': seq<Node>, x: Token)
    requires |nodes| == |tree| == |nodes'|
    requires forall z :: 0 <= z < |tree| ==>
               (nodes[z].flag ==> nodes'[z].flag) && (nodes[z].direct ==> nodes'[z].direct)
    ensures Cancelled(tree, nodes, x) ==> Cancelled(tree, nodes', x)
    ensures Caused(tree, nodes, x) ==> Caused(tree, nodes', x)
    decreases x
  {
    if x < |tree| && tree[x].Some? { ChainGrows(tree, nodes, nodes', tree[x].value); }
  }

  lemma {:induction false} SettledStays(tree: Tree, s: State, th: ThreadId, s': State, x: Token, y: Token, r: Reason)
    requires Evolves(tree, s, th, s')
    ensures FrozenBelow(tree, s, x, y) ==> FrozenBelow(tree, s', x, y)
    ensures Decided(tree, s, x, r) ==> Decided(tree, s', x, r)
    decreases x
  {
    if x < |tree| && tree[x].Some? { SettledStays(tree, s, th, s', tree[x].value, y, r); }
  }

  lemma OverruledStays(tree: Tree, s: State, th: ThreadId, s': State, x: Token)
    requires Evolves(tree, s, th, s') && Overruled(tree, s, x)
    ensures Overruled(tree, s', x)
  {
    var r :| Decided(tree, s, x, r) && !IsFailure(r);
    ChainGrows(tree, s.nodes, s'.nodes, x);
    SettledStays(tree, s, th, s', x, x, r);
  }

  /** What another thread knows survives a step of `th`. */
  lemma KnowledgeStays(tree: Tree, s: State, th: ThreadId, s': State, other: ThreadId)
    requires Evolves(tree, s, th, s') && other != th && PcOk(tree, s, other, At(s, other))
    ensures At(s', other) == At(s, other) && PcOk(tree, s', other, At(s', other))
  {
    var pc := At(s, other);
    assert At(s', other) == pc;
    if pc.Caching? || pc.Unlocking? || pc.Collecting? || pc.Notifying? || pc.Alerting? || pc.LastAlert? {
      ChainGrows(tree, s.nodes, s'.nodes, pc.tok);
    }
    if pc.Walk? || pc.Reading? { ChainGrows(tree, s.nodes, s'.nodes, pc.at); }
    if pc.Reading? {
      SettledStays(tree, s, th, s', pc.tok, pc.at, UserRequested);
    }
    if pc.Escalating? { OverruledStays(tree, s, th, s', pc.tok); }
  }

  // ---------------------------------------------------------------------------
  // Every step keeps the invariant
  // ---------------------------------------------------------------------------

  /** Flags only turn on; nothing else of a frozen node moves unless its lock does. */
  ghost predicate Quiet(tree: Tree, s: State, th: ThreadId, s': State) {
    && |s.nodes| == |tree| == |s'.nodes|
    && s'.threads == s.threads[th := At(s', th)]
    && (forall x :: 0 <= x < |tree| ==> NodeEvolves(s.nodes[x], th, s'.nodes[x]))
  }

  /** A frozen node stays frozen if the mover, should it hold or take the lock, will
      withdraw, and does not write. */
  lemma FrozenStays(tree: Tree, s: State, th: ThreadId, s': State, x: Token)
    requires Quiet(tree, s, th, s') && Frozen(tree, s, x)
    requires s'.nodes[x].reason.None?
    requires s'.nodes[x].lock == Some(th) ==> WillWithdraw(tree, s'.nodes, At(s', th), x)
    ensures Frozen(tree, s', x)
  {
    ChainGrows(tree, s.nodes, s'.nodes, x);
    var lock := s.nodes[x].lock;
    if lock.Some? && lock != Some(th) {
      var pc := At(s, lock.value);
      if pc.Walk? { ChainGrows(tree, s.nodes, s'.nodes, pc.at); }
    }
  }

  lemma CheckEvolves(tree: Tree, s: State, th: ThreadId, c: CheckMove)
    requires Inv(tree, s) && CheckEnabled(tree, s, th, c)
    ensures Evolves(tree, s, th, CheckApply(tree, s, th, c))
  {
    var s' := CheckApply(tree, s, th, c);
    assert Quiet(tree, s, th, s');
    forall x: Token | Frozen(tree, s, x) ensures Frozen(tree, s', x) {
      assert NodeOk(tree, s, x);
      FrozenStays(tree, s, th, s', x);
    }
  }

  lemma CancelEvolves(tree: Tree, s: State, th: ThreadId, m: CancelMove)
    requires Inv(tree, s) && CancelEnabled(tree, s, th, m)
    ensures Evolves(tree, s, th, CancelApply(tree, s, th, m))
  {
    var s' := CancelApply(tree, s, th, m);
    assert PcOk(tree, s, th, At(s, th));
    assert Quiet(tree, s, th, s');
    forall x: Token | Frozen(tree, s, x) ensures Frozen(tree, s', x) {
      assert NodeOk(tree, s, x);
      ChainGrows(tree, s.nodes, s'.nodes, x);
      FrozenStays(tree, s, th, s', x);
    }
  }

  lemma NotifyEvolves(tree: Tree, s: State, th: ThreadId, n: NotifyMove)
    requires Inv(tree, s) && NotifyEnabled(tree, s, th, n)
    ensures Evolves(tree, s, th, NotifyApply(tree, s, th, n))
  {
    var s' := NotifyApply(tree, s, th, n);
    forall x: Token | Frozen(tree, s, x) ensures Frozen(tree, s', x) {
      assert NodeOk(tree, s, x);
      FrozenStays(tree, s, th, s', x);
    }
  }

  lemma ReadEvolves(tree: Tree, s: State, th: ThreadId, r: ReadMove)
    requires Inv(tree, s) && ReadEnabled(tree, s, th, r)
    ensures Evolves(tree, s, th, ReadApply(tree, s, th, r))
  {
    var s' := ReadApply(tree, s, th, r);
    forall x: Token | Frozen(tree, s, x) ensures Frozen(tree, s', x) {
      assert NodeOk(tree, s, x);
      FrozenStays(tree, s, th, s', x);
    }
  }

  lemma RegisterEvolves(tree: Tree, s: State, th: ThreadId, g: RegisterMove)
    requires Inv(tree, s) && RegisterEnabled(tree, s, th, g)
    ensures Evolves(tree, s, th, RegisterApply(tree, s, th, g))
  {
    var s' := RegisterApply(tree, s, th, g);
    forall x: Token | Frozen(tree, s, x) ensures Frozen(tree, s', x) {
      assert NodeOk(tree, s, x);
      FrozenStays(tree, s, th, s', x);
    }
  }

  lemma WaitEvolves(tree: Tree, s: State, th: ThreadId, w: WaitMove)
    requires Inv(tree, s) && WaitEnabled(tree, s, th, w)
    ensures Evolves(tree, s, th, WaitApply(tree, s, th, w))
  {
    var s' := WaitApply(tree, s, th, w);
    forall x: Token | Frozen(tree, s, x) ensures Frozen(tree, s', x) {
      assert NodeOk(tree, s, x);
      FrozenStays(tree, s, th, s', x);
    }
  }

  /** What `th` does to the nodes is justified, and what it then knows is true. */
  ghost predicate MoverOk(tree: Tree, s: State, th: ThreadId, s': State)
    requires |s.nodes| == |tree| == |s'.nodes|
  {
    && PcOk(tree, s', th, At(s', th))
    && (forall x :: 0 <= x < |tree| ==> ChangeOk(tree, s, th, s', x))
  }

  ghost predicate ChangeOk(tree: Tree, s: State, th: ThreadId, s': State, x: Token)
    requires |s.nodes| == |tree| == |s'.nodes| && x < |tree|
  {
    var node, node' := s.nodes[x], s'.nodes[x];
    && (node'.flag && !node.flag ==> Caused(tree, s'.nodes, x))
    && (node'.direct && !node.direct ==> node'.flag && node'.reason.Some?)
    && (node'.lock == Some(th) ==> HoldsLock(At(s', th), x))
    && (node'.escalation != node.escalation ==>
          node'.escalation.Some? && IsFailure(node'.escalation.value) && Overruled(tree, s', x))
  }

  lemma MoveKeepsInv(tree: Tree, s: State, th: ThreadId, s': State)
    requires Inv(tree, s) && Evolves(tree, s, th, s') && MoverOk(tree, s, th, s')
    ensures Inv(tree, s')
  {
    forall x | 0 <= x < |tree| ensures NodeOk(tree, s', x) {
      assert NodeOk(tree, s, x) && ChangeOk(tree, s, th, s', x);
      ChainGrows(tree, s.nodes, s'.nodes, x);
      if s.nodes[x].escalation.Some? { OverruledStays(tree, s, th, s', x); }
    }
    forall other ensures PcOk(tree, s', other, At(s', other)) {
      if other != th { KnowledgeStays(tree, s, th, s', other); }
    }
  }

  /** Acting on is_cancelled's answer is justified. */
  lemma ResolveOk(tree: Tree, s: State, th: ThreadId, tok: Token, call: Call, answer: bool)
    requires |s.nodes| == |tree| && tok < |tree|
    requires answer ==> Caused(tree, s.nodes, tok)
    requires call.ToRead? && call.goal.Some? ==> answer && IsFailure(call.goal.value)
    requires call.ToRecheck? ==> s.nodes[tok].lock == Some(th)
    ensures PcOk(tree, s, th, Resolve(tree, tok, call, answer))
  {
  }

  lemma LoadPcOk(tree: Tree, s: State, th: ThreadId)
    requires Inv(tree, s) && CheckEnabled(tree, s, th, Load)
    ensures PcOk(tree, CheckApply(tree, s, th, Load), th, At(CheckApply(tree, s, th, Load), th))
  {
    var s', pc := CheckApply(tree, s, th, Load), At(s, th);
    assert PcOk(tree, s, th, pc) && NodeOk(tree, s, pc.at);
    assert pc.call.ToRecheck? ==> HoldsLock(pc, pc.tok);
    if s.nodes[pc.at].flag {
      CauseBelow(tree, s.nodes, pc.tok, pc.at);
      ResolveOk(tree, s', th, pc.tok, pc.call, true);
    } else if tree[pc.at].Some? {
      AboveUp(tree, pc.tok, pc.at);
    } else {
      ResolveOk(tree, s', th, pc.tok, pc.call, false);
    }
  }

  lemma CheckMoverOk(tree: Tree, s: State, th: ThreadId, c: CheckMove)
    requires Inv(tree, s) && CheckEnabled(tree, s, th, c) && Evolves(tree, s, th, CheckApply(tree, s, th, c))
    ensures MoverOk(tree, s, th, CheckApply(tree, s, th, c))
  {
    var s', pc := CheckApply(tree, s, th, c), At(s, th);
    assert PcOk(tree, s, th, pc);
    ChainGrows(tree, s.nodes, s'.nodes, pc.tok);
    if c.Load? {
      LoadPcOk(tree, s, th);
    } else {
      assert pc.call.ToRecheck? ==> HoldsLock(pc, pc.tok);
      ResolveOk(tree, s', th, pc.tok, pc.call, true);
    }
    forall x | 0 <= x < |tree| ensures ChangeOk(tree, s, th, s', x) {
      assert NodeOk(tree, s, x);
    }
  }

  lemma CancelPcOk(tree: Tree, s: State, th: ThreadId, m: CancelMove)
    requires Inv(tree, s) && CancelEnabled(tree, s, th, m)
    ensures PcOk(tree, CancelApply(tree, s, th, m), th, At(CancelApply(tree, s, th, m), th))
  {
    assert PcOk(tree, s, th, At(s, th));
    match m
    case Unlock => UnlockPcOk(tree, s, th);
    case Swap => SwapPcOk(tree, s, th);
    case _ =>
  }

  lemma UnlockPcOk(tree: Tree, s: State, th: ThreadId)
    requires Inv(tree, s) && CancelEnabled(tree, s, th, Unlock)
    ensures PcOk(tree, CancelApply(tree, s, th, Unlock), th, At(CancelApply(tree, s, th, Unlock), th))
  {
    var pc := At(s, th);
    assert PcOk(tree, s, th, pc) && HoldsLock(pc, pc.tok);
    ChainGrows(tree, s.nodes, CancelApply(tree, s, th, Unlock).nodes, pc.tok);
  }

  lemma SwapPcOk(tree: Tree, s: State, th: ThreadId)
    requires Inv(tree, s) && CancelEnabled(tree, s, th, Swap)
    ensures PcOk(tree, CancelApply(tree, s, th, Swap), th, At(CancelApply(tree, s, th, Swap), th))
  {
    var pc := At(s, th);
    assert PcOk(tree, s, th, pc) && NodeOk(tree, s, pc.tok);
    ChainGrows(tree, s.nodes, CancelApply(tree, s, th, Swap).nodes, pc.tok);
  }

  lemma CancelChangeOk(tree: Tree, s: State, th: ThreadId, m: CancelMove, x: Token)
    requires Inv(tree, s) && CancelEnabled(tree, s, th, m) && x < |tree|
    ensures ChangeOk(tree, s, th, CancelApply(tree, s, th, m), x)
  {
    assert NodeOk(tree, s, x) && PcOk(tree, s, th, At(s, th));
    if m.Unlock? { assert HoldsLock(At(s, th), At(s, th).tok); }
  }

  lemma CancelMoverOk(tree: Tree, s: State, th: ThreadId, m: CancelMove)
    requires Inv(tree, s) && CancelEnabled(tree, s, th, m)
    ensures MoverOk(tree, s, th, CancelApply(tree, s, th, m))
  {
    CancelPcOk(tree, s, th, m);
    forall x | 0 <= x < |tree| ensures ChangeOk(tree, s, th, CancelApply(tree, s, th, m), x) {
      CancelChangeOk(tree, s, th, m, x);
    }
  }

  lemma NotifyMoverOk(tree: Tree, s: State, th: ThreadId, n: NotifyMove)
    requires Inv(tree, s) && NotifyEnabled(tree, s, th, n)
    ensures MoverOk(tree, s, th, NotifyApply(tree, s, th, n))
  {
    assert PcOk(tree, s, th, At(s, th));
    forall x | 0 <= x < |tree| ensures ChangeOk(tree, s, th, NotifyApply(tree, s, th, n), x) {
      assert NodeOk(tree, s, x);
    }
  }

  lemma RegisterPcOk(tree: Tree, s: State, th: ThreadId, g: RegisterMove)
    requires Inv(tree, s) && RegisterEnabled(tree, s, th, g)
    ensures PcOk(tree, RegisterApply(tree, s, th, g), th, At(RegisterApply(tree, s, th, g), th))
  {
    var pc := At(s, th);
    assert PcOk(tree, s, th, pc);
    if g.CheckNode? || g.Alert? {
      assert NodeOk(tree, s, pc.at);
      CauseBelow(tree, s.nodes, pc.tok, pc.at);
      if tree[pc.at].Some? { AboveUp(tree, pc.tok, pc.at); }
    }
  }

  lemma RegisterChangeOk(tree: Tree, s: State, th: ThreadId, g: RegisterMove, x: Token)
    requires Inv(tree, s) && RegisterEnabled(tree, s, th, g) && x < |tree|
    ensures ChangeOk(tree, s, th, RegisterApply(tree, s, th, g), x)
  {
    assert NodeOk(tree, s, x);
  }

  lemma RegisterMoverOk(tree: Tree, s: State, th: ThreadId, g: RegisterMove)
    requires Inv(tree, s) && RegisterEnabled(tree, s, th, g)
    ensures MoverOk(tree, s, th, RegisterApply(tree, s, th, g))
  {
    RegisterPcOk(tree, s, th, g);
    forall x | 0 <= x < |tree| ensures ChangeOk(tree, s, th, RegisterApply(tree, s, th, g), x) {
      RegisterChangeOk(tree, s, th, g, x);
    }
  }

  lemma WaitPcOk(tree: Tree, s: State, th: ThreadId, w: WaitMove)
    requires Inv(tree, s) && WaitEnabled(tree, s, th, w)
    ensures PcOk(tree, WaitApply(tree, s, th, w), th, At(WaitApply(tree, s, th, w), th))
  {
    var pc := At(s, th);
    assert PcOk(tree, s, th, pc);
    if w.Probe? && tree[pc.at].Some? { AboveUp(tree, pc.tok, pc.at); }
  }

  lemma WaitChangeOk(tree: Tree, s: State, th: ThreadId, w: WaitMove, x: Token)
    requires Inv(tree, s) && WaitEnabled(tree, s, th, w) && x < |tree|
    ensures ChangeOk(tree, s, th, WaitApply(tree, s, th, w), x)
  {
    assert NodeOk(tree, s, x);
  }

  lemma WaitMoverOk(tree: Tree, s: State, th: ThreadId, w: WaitMove)
    requires Inv(tree, s) && WaitEnabled(tree, s, th, w)
    ensures MoverOk(tree, s, th, WaitApply(tree, s, th, w))
  {
    WaitPcOk(tree, s, th, w);
    forall x | 0 <= x < |tree| ensures ChangeOk(tree, s, th, WaitApply(tree, s, th, w), x) {
      WaitChangeOk(tree, s, th, w, x);
    }
  }

  lemma CancelledMeansCaused(tree: Tree, s: State, x: Token)
    requires Inv(tree, s)
    ensures Cancelled(tree, s.nodes, x) <==> Caused(tree, s.nodes, x)
  {
    forall z | 0 <= z < |tree|
      ensures (s.nodes[z].flag ==> Caused(tree, s.nodes, z)) && (s.nodes[z].direct ==> s.nodes[z].flag)
    {
      assert NodeOk(tree, s, z);
    }
    CancelledIsCaused(tree, s.nodes, x);
  }

  // ---------------------------------------------------------------------------
  // Reading a reason
  // ---------------------------------------------------------------------------

  /** At a node that reason() reads and finds empty, the search goes on above. */
  lemma EmptyNodeIsFrozen(tree: Tree, s: State, x: Token)
    requires Inv(tree, s) && Caused(tree, s.nodes, x) && s.nodes[x].reason.None? && s.nodes[x].lock.None?
    ensures Frozen(tree, s, x) && tree[x].Some? && Caused(tree, s.nodes, tree[x].value)
  {
    assert NodeOk(tree, s, x);
    CancelledMeansCaused(tree, s, x);
  }

  lemma {:induction false} FrozenBelowUp(tree: Tree, s: State, x: Token, y: Token)
    requires |s.nodes| == |tree| && FrozenBelow(tree, s, x, y) && Frozen(tree, s, y) && tree[y].Some?
    ensures FrozenBelow(tree, s, x, tree[y].value)
    decreases x
  {
    if x != y { FrozenBelowUp(tree, s, tree[x].value, y); }
  }

  /** The first reason found above frozen nodes is the decided one. */
  lemma {:induction false} FoundIsDecided(tree: Tree, s: State, x: Token, y: Token)
    requires |s.nodes| == |tree| && FrozenBelow(tree, s, x, y) && y < |tree| && s.nodes[y].reason.Some?
    ensures Decided(tree, s, x, s.nodes[y].reason.value)
    decreases x
  {
    if x != y { FoundIsDecided(tree, s, tree[x].value, y); }
  }

  lemma {:induction false} DecidedOnce(tree: Tree, s: State, x: Token, r: Reason, r': Reason)
    requires |s.nodes| == |tree| && Decided(tree, s, x, r) && Decided(tree, s, x, r')
    ensures r == r'
    decreases x
  {
    if s.nodes[x].reason.None? { DecidedOnce(tree, s, tree[x].value, r, r'); }
  }

  lemma ReadMoverOk(tree: Tree, s: State, th: ThreadId, r: ReadMove)
    requires Inv(tree, s) && ReadEnabled(tree, s, th, r) && Evolves(tree, s, th, ReadApply(tree, s, th, r))
    ensures MoverOk(tree, s, th, ReadApply(tree, s, th, r))
  {
    var s', pc := ReadApply(tree, s, th, r), At(s, th);
    assert PcOk(tree, s, th, pc);
    forall x | 0 <= x < |tree| ensures ChangeOk(tree, s, th, s', x) {
      assert NodeOk(tree, s, x);
      if pc.Escalating? && x == pc.tok { OverruledStays(tree, s, th, s', x); }
    }
    match r
    case Observe(_) =>
    case Read(_) =>
    case ReadNode => ReadNodeOk(tree, s, th);
    case SetEscalation =>
      CancelledMeansCaused(tree, s, pc.tok);
      ChainGrows(tree, s.nodes, s'.nodes, pc.tok);
  }

  lemma ReadNodeOk(tree: Tree, s: State, th: ThreadId)
    requires Inv(tree, s) && ReadEnabled(tree, s, th, ReadNode)
    requires Evolves(tree, s, th, ReadApply(tree, s, th, ReadNode))
    ensures PcOk(tree, ReadApply(tree, s, th, ReadNode), th, At(ReadApply(tree, s, th, ReadNode), th))
  {
    var s', pc := ReadApply(tree, s, th, ReadNode), At(s, th);
    assert PcOk(tree, s, th, pc);
    var reason := s.nodes[pc.at].reason;
    if reason.None? {
      EmptyNodeIsFrozen(tree, s, pc.at);
      AboveUp(tree, pc.tok, pc.at);
      FrozenBelowUp(tree, s, pc.tok, pc.at);
      SettledStays(tree, s, th, s', pc.tok, tree[pc.at].value, UserRequested);
    } else {
      FoundIsDecided(tree, s, pc.tok, pc.at);
      SettledStays(tree, s, th, s', pc.tok, pc.at, reason.value);
      CauseBelow(tree, s.nodes, pc.tok, pc.at);
      CancelledMeansCaused(tree, s, pc.tok);
    }
  }
}
