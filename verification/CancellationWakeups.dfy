/**
 No cancellation wake-up is lost: registered handles and async waiters are notified,
 for every interleaving, even when a cached flag makes an inner cancel skip its own
 notification.
 */
module CancellationWakeups {
  import opened Options
  import opened Runs
  import opened CancellationTokens
  import opened CancellationStability
  import opened CancellationRuns

  // ---------------------------------------------------------------------------
  // Wake handles
  // ---------------------------------------------------------------------------

  /** The thread will still notify `h` on account of node `y`. */
  predicate WillNotify(pc: Pc, h: Handle, y: Token) {
    || (pc.Collecting? && pc.tok == y)
    || (pc.Notifying? && pc.tok == y && h in pc.rest)
    || (pc.Checking? && pc.at == y && pc.h == h)
    || (pc.Alerting? && pc.h == h)
  }

  /** If `h` sits on the list of a node that was cancelled itself, it is notified or
      some thread is about to do it. */
  ghost predicate HandleOk(s: State, h: Handle, y: Token)
    requires y < |s.nodes|
  {
    h in s.nodes[y].handles && s.nodes[y].direct && h !in s.dead ==>
      h in s.notified || exists th :: WillNotify(At(s, th), h, y)
  }

  /** `h` is on the list of every node from `x` up to, and not including, `y`. */
  predicate PushedBelow(tree: Tree, nodes: seq<Node>, h: Handle, x: Token, y: Token)
    requires |nodes| == |tree|
  {
    x < |tree| && (x == y || (h in nodes[x].handles && tree[x].Some? && PushedBelow(tree, nodes, h, tree[x].value, y)))
  }

  /** `h` is on the list of `x` and of every ancestor. */
  predicate PushedAll(tree: Tree, nodes: seq<Node>, h: Handle, x: Token)
    requires |nodes| == |tree|
  {
    x < |tree| && h in nodes[x].handles && (tree[x].Some? ==> PushedAll(tree, nodes, h, tree[x].value))
  }

  /** How far a registering thread has come. */
  predicate Progress(tree: Tree, s: State, pc: Pc, h: Handle)
    requires |s.nodes| == |tree|
  {
    Registers(pc, h) ==>
      && h in s.owner && s.owner[h] == pc.tok && h !in s.dead
      && (pc.Pushing? || pc.Checking? || pc.Alerting? ==>
            pc.at < |tree| && PushedBelow(tree, s.nodes, h, pc.tok, pc.at))
      && (pc.Checking? || pc.Alerting? ==> h in s.nodes[pc.at].handles)
      && (pc.LastAlert? || pc.Walk? || pc.Caching? ==> PushedAll(tree, s.nodes, h, pc.tok))
  }

  /** Once registered, a live handle is on every list of its chain. */
  ghost predicate Complete(tree: Tree, s: State, h: Handle)
    requires |s.nodes| == |tree|
  {
    h in s.owner && h !in s.dead && (forall th :: !Registers(At(s, th), h)) ==> PushedAll(tree, s.nodes, h, s.owner[h])
  }

  /** `h` is only ever on lists of its own chain. */
  predicate OnChain(tree: Tree, s: State, h: Handle, y: Token) {
    h in s.owner && Above(tree, s.owner[h], y)
  }

  ghost predicate HandleInv(tree: Tree, s: State, h: Handle)
    requires |s.nodes| == |tree|
  {
    && (forall y :: 0 <= y < |tree| ==> HandleOk(s, h, y))
    && (forall y :: 0 <= y < |tree| && h in s.nodes[y].handles ==> OnChain(tree, s, h, y))
    && (forall th :: Progress(tree, s, At(s, th), h))
    && (forall th :: At(s, th).Notifying? && h in At(s, th).rest ==> OnChain(tree, s, h, At(s, th).tok))
    && Complete(tree, s, h)
    && (h !in s.owner ==> h !in s.dead)
    && (h in s.notified ==> h in s.owner && Caused(tree, s.nodes, s.owner[h]))
  }

  // ---------------------------------------------------------------------------
  // Chains of lists
  // ---------------------------------------------------------------------------

  lemma {:induction false} PushedUp(tree: Tree, nodes: seq<Node>, h: Handle, x: Token, y: Token)
    requires |nodes| == |tree| && PushedBelow(tree, nodes, h, x, y) && y < |tree| && h in nodes[y].handles
    ensures tree[y].Some? ==> PushedBelow(tree, nodes, h, x, tree[y].value)
    ensures tree[y].None? ==> PushedAll(tree, nodes, h, x)
    decreases x
  {
    if x != y { PushedUp(tree, nodes, h, tree[x].value, y); }
  }

  lemma {:induction false} PushedStays(tree: Tree, nodes: seq<Node>, nodes': seq<Node>, h: Handle, x: Token, y: Token)
    requires |nodes| == |tree| == |nodes'|
    requires forall z :: 0 <= z < |tree| && h in nodes[z].handles ==> h in nodes'[z].handles
    ensures PushedBelow(tree, nodes, h, x, y) ==> PushedBelow(tree, nodes', h, x, y)
    ensures PushedAll(tree, nodes, h, x) ==> PushedAll(tree, nodes', h, x)
    decreases x
  {
    if x < |tree| && tree[x].Some? { PushedStays(tree, nodes, nodes', h, tree[x].value, y); }
  }

  /** A token cancelled itself or above, with `h` on every list, has `h` on the list
      of the node that was cancelled. */
  lemma {:induction false} CauseHasHandle(tree: Tree, nodes: seq<Node>, h: Handle, x: Token) returns (y: Token)
    requires |nodes| == |tree| && PushedAll(tree, nodes, h, x) && Caused(tree, nodes, x)
    ensures y < |tree| && nodes[y].direct && h in nodes[y].handles
    decreases x
  {
    if nodes[x].direct { y := x; } else { y := CauseHasHandle(tree, nodes, h, tree[x].value); }
  }

  // ---------------------------------------------------------------------------
  // Every step keeps the handles' invariant
  // ---------------------------------------------------------------------------

  /** What a move of `th` may do to `h` on node `y`. */
  predicate HandleMove(s: State, th: ThreadId, s': State, h: Handle, y: Token)
    requires y < |s.nodes| == |s'.nodes|
  {
    var node, node', pc, pc' := s.nodes[y], s'.nodes[y], At(s, th), At(s', th);
    && (h in node.handles && h !in s'.dead ==> h in node'.handles)
    && (h in node'.handles && h !in node.handles ==> WillNotify(pc', h, y) && pc.Pushing? && pc.at == y && pc.h == h)
    && (node'.direct && !node.direct ==> WillNotify(pc', h, y))
    && (WillNotify(pc, h, y) && h in node.handles && node.direct && h !in s'.dead ==>
          h in s'.notified || WillNotify(pc', h, y))
    && (pc'.Notifying? && pc'.tok == y && h in pc'.rest ==>
          (pc.Notifying? || pc.Collecting?) && pc.tok == y && if pc.Notifying? then h in pc.rest else h in node.handles)
  }

  /** Registrations and notifications are not forgotten, and not made up. */
  predicate Keeps(s: State, th: ThreadId, s': State, h: Handle) {
    var pc := At(s, th);
    && |s.nodes| == |s'.nodes|
    && s'.threads == s.threads[th := At(s', th)]
    && (h in s.notified ==> h in s'.notified)
    && (h in s'.notified && h !in s.notified ==>
          (pc.Notifying? && h in pc.rest) || ((pc.Alerting? || pc.LastAlert?) && pc.h == h))
    && (h in s.dead ==> h in s'.dead)
    && (h in s'.dead && h !in s.dead ==> h in s.owner && forall x :: x in s.threads ==> !Registers(s.threads[x], h))
    && (h in s.owner ==> h in s'.owner && s'.owner[h] == s.owner[h])
    && (h in s'.owner && h !in s.owner ==> Registers(At(s', th), h))
  }

  lemma MoveKeepsHandleOk(s: State, th: ThreadId, s': State, h: Handle, y: Token)
    requires Keeps(s, th, s', h) && y < |s.nodes| && HandleOk(s, h, y) && HandleMove(s, th, s', h, y)
    ensures HandleOk(s', h, y)
  {
    assert forall x :: x != th ==> At(s', x) == At(s, x);
  }

  lemma {:induction false} LiveKeeps(handles: seq<Handle>, dead: set<Handle>)
    ensures forall h :: h in Live(handles, dead) <==> h in handles && h !in dead
  {
    if handles != [] {
      LiveKeeps(handles[1..], dead);
      assert handles == [handles[0]] + handles[1..];
    }
  }

  lemma CheckKeeps(tree: Tree, s: State, th: ThreadId, c: CheckMove, h: Handle)
    requires |s.nodes| == |tree| && CheckEnabled(tree, s, th, c)
    ensures Keeps(s, th, CheckApply(tree, s, th, c), h)
  {
  }

  lemma CheckHandleMove(tree: Tree, s: State, th: ThreadId, c: CheckMove, h: Handle, y: Token)
    requires |s.nodes| == |tree| && y < |tree| && NodeOk(tree, s, y) && CheckEnabled(tree, s, th, c)
    ensures |CheckApply(tree, s, th, c).nodes| == |tree| && HandleMove(s, th, CheckApply(tree, s, th, c), h, y)
  {
    match c
    case Load => LoadHandleMove(tree, s, th, h, y);
    case Cache => CacheHandleMove(tree, s, th, h, y);
  }

  lemma LoadHandleMove(tree: Tree, s: State, th: ThreadId, h: Handle, y: Token)
    requires |s.nodes| == |tree| && y < |tree| && CheckEnabled(tree, s, th, Load)
    ensures |CheckApply(tree, s, th, Load).nodes| == |tree| && HandleMove(s, th, CheckApply(tree, s, th, Load), h, y)
  {
  }

  lemma CacheHandleMove(tree: Tree, s: State, th: ThreadId, h: Handle, y: Token)
    requires |s.nodes| == |tree| && y < |tree| && CheckEnabled(tree, s, th, Cache)
    ensures |CheckApply(tree, s, th, Cache).nodes| == |tree| && HandleMove(s, th, CheckApply(tree, s, th, Cache), h, y)
  {
  }

  lemma CancelKeeps(tree: Tree, s: State, th: ThreadId, m: CancelMove, h: Handle)
    requires |s.nodes| == |tree| && CancelEnabled(tree, s, th, m)
    ensures Keeps(s, th, CancelApply(tree, s, th, m), h)
  {
  }

  lemma CancelHandleMove(tree: Tree, s: State, th: ThreadId, m: CancelMove, h: Handle, y: Token)
    requires |s.nodes| == |tree| && y < |tree| && NodeOk(tree, s, y) && CancelEnabled(tree, s, th, m)
    ensures |CancelApply(tree, s, th, m).nodes| == |tree| && HandleMove(s, th, CancelApply(tree, s, th, m), h, y)
  {
  }

  lemma NotifyKeeps(tree: Tree, s: State, th: ThreadId, n: NotifyMove, h: Handle)
    requires |s.nodes| == |tree| && NotifyEnabled(tree, s, th, n)
    ensures Keeps(s, th, NotifyApply(tree, s, th, n), h)
  {
  }

  lemma NotifyHandleMove(tree: Tree, s: State, th: ThreadId, n: NotifyMove, h: Handle, y: Token)
    requires |s.nodes| == |tree| && y < |tree| && NodeOk(tree, s, y) && NotifyEnabled(tree, s, th, n)
    ensures |NotifyApply(tree, s, th, n).nodes| == |tree| && HandleMove(s, th, NotifyApply(tree, s, th, n), h, y)
  {
    if n.Collect? { LiveKeeps(s.nodes[At(s, th).tok].handles, s.dead); }
  }

  lemma ReadKeeps(tree: Tree, s: State, th: ThreadId, r: ReadMove, h: Handle)
    requires |s.nodes| == |tree| && ReadEnabled(tree, s, th, r)
    ensures Keeps(s, th, ReadApply(tree, s, th, r), h)
  {
  }

  lemma ReadHandleMove(tree: Tree, s: State, th: ThreadId, r: ReadMove, h: Handle, y: Token)
    requires |s.nodes| == |tree| && y < |tree| && NodeOk(tree, s, y) && ReadEnabled(tree, s, th, r)
    ensures |ReadApply(tree, s, th, r).nodes| == |tree| && HandleMove(s, th, ReadApply(tree, s, th, r), h, y)
  {
  }

  lemma RegisterKeeps(tree: Tree, s: State, th: ThreadId, g: RegisterMove, h: Handle)
    requires |s.nodes| == |tree| && RegisterEnabled(tree, s, th, g)
    ensures Keeps(s, th, RegisterApply(tree, s, th, g), h)
  {
  }

  lemma RegisterHandleMove(tree: Tree, s: State, th: ThreadId, g: RegisterMove, h: Handle, y: Token)
    requires |s.nodes| == |tree| && y < |tree| && NodeOk(tree, s, y) && RegisterEnabled(tree, s, th, g)
    ensures |RegisterApply(tree, s, th, g).nodes| == |tree| && HandleMove(s, th, RegisterApply(tree, s, th, g), h, y)
  {
  }

  lemma WaitKeeps(tree: Tree, s: State, th: ThreadId, w: WaitMove, h: Handle)
    requires |s.nodes| == |tree| && WaitEnabled(tree, s, th, w)
    ensures Keeps(s, th, WaitApply(tree, s, th, w), h)
  {
  }

  lemma WaitHandleMove(tree: Tree, s: State, th: ThreadId, w: WaitMove, h: Handle, y: Token)
    requires |s.nodes| == |tree| && y < |tree| && NodeOk(tree, s, y) && WaitEnabled(tree, s, th, w)
    ensures |WaitApply(tree, s, th, w).nodes| == |tree| && HandleMove(s, th, WaitApply(tree, s, th, w), h, y)
  {
  }

  /** A thread's progress through a registration stays on record. */
  predicate ProgressMove(tree: Tree, s: State, th: ThreadId, s': State, h: Handle)
    requires |s.nodes| == |tree| == |s'.nodes|
  {
    && Progress(tree, s', At(s', th), h)
    && (Registers(At(s, th), h) && !Registers(At(s', th), h) && h in s'.owner ==>
          PushedAll(tree, s'.nodes, h, s'.owner[h]))
  }

  lemma CheckProgress(tree: Tree, s: State, th: ThreadId, c: CheckMove, h: Handle)
    requires |s.nodes| == |tree| && CheckEnabled(tree, s, th, c) && Progress(tree, s, At(s, th), h)
    ensures ProgressMove(tree, s, th, CheckApply(tree, s, th, c), h)
  {
    match c
    case Load => LoadProgress(tree, s, th, h);
    case Cache => CacheProgress(tree, s, th, h);
  }

  lemma LoadProgress(tree: Tree, s: State, th: ThreadId, h: Handle)
    requires |s.nodes| == |tree| && CheckEnabled(tree, s, th, Load) && Progress(tree, s, At(s, th), h)
    ensures ProgressMove(tree, s, th, CheckApply(tree, s, th, Load), h)
  {
  }

  lemma CacheProgress(tree: Tree, s: State, th: ThreadId, h: Handle)
    requires |s.nodes| == |tree| && CheckEnabled(tree, s, th, Cache) && Progress(tree, s, At(s, th), h)
    ensures ProgressMove(tree, s, th, CheckApply(tree, s, th, Cache), h)
  {
    var pc := At(s, th);
    if Registers(pc, h) { PushedStays(tree, s.nodes, CheckApply(tree, s, th, Cache).nodes, h, pc.tok, pc.tok); }
  }

  lemma RegisterProgress(tree: Tree, s: State, th: ThreadId, g: RegisterMove, h: Handle)
    requires |s.nodes| == |tree| && RegisterEnabled(tree, s, th, g) && Progress(tree, s, At(s, th), h)
    requires h !in s.owner ==> h !in s.dead
    ensures ProgressMove(tree, s, th, RegisterApply(tree, s, th, g), h)
  {
    var s', pc := RegisterApply(tree, s, th, g), At(s, th);
    if Registers(pc, h) && g.Push? { PushedStays(tree, s.nodes, s'.nodes, h, pc.tok, pc.at); }
    if Registers(pc, h) && (g.CheckNode? || g.Alert?) { PushedUp(tree, s.nodes, h, pc.tok, pc.at); }
  }

  lemma StepKeepsHandle(tree: Tree, s: State, step: Step, h: Handle)
    requires |s.nodes| == |tree| && Enabled(tree, s, step)
    ensures Keeps(s, step.th, Apply(tree, s, step), h)
  {
    match step
    case OfCheck(th, c) => CheckKeeps(tree, s, th, c, h);
    case OfCancel(th, m) => CancelKeeps(tree, s, th, m, h);
    case OfNotify(th, n) => NotifyKeeps(tree, s, th, n, h);
    case OfRead(th, r) => ReadKeeps(tree, s, th, r, h);
    case OfRegister(th, g) => RegisterKeeps(tree, s, th, g, h);
    case OfWait(th, w) => WaitKeeps(tree, s, th, w, h);
  }

  lemma StepHandleMove(tree: Tree, s: State, step: Step, h: Handle, y: Token)
    requires Inv(tree, s) && y < |tree| && Enabled(tree, s, step)
    ensures |Apply(tree, s, step).nodes| == |tree| && HandleMove(s, step.th, Apply(tree, s, step), h, y)
  {
    assert NodeOk(tree, s, y);
    match step
    case OfCheck(th, c) => CheckHandleMove(tree, s, th, c, h, y);
    case OfCancel(th, m) => CancelHandleMove(tree, s, th, m, h, y);
    case OfNotify(th, n) => NotifyHandleMove(tree, s, th, n, h, y);
    case OfRead(th, r) => ReadHandleMove(tree, s, th, r, h, y);
    case OfRegister(th, g) => RegisterHandleMove(tree, s, th, g, h, y);
    case OfWait(th, w) => WaitHandleMove(tree, s, th, w, h, y);
  }

  lemma CancelProgress(tree: Tree, s: State, th: ThreadId, m: CancelMove, h: Handle)
    requires |s.nodes| == |tree| && CancelEnabled(tree, s, th, m)
    ensures ProgressMove(tree, s, th, CancelApply(tree, s, th, m), h)
  {
  }

  lemma NotifyProgress(tree: Tree, s: State, th: ThreadId, n: NotifyMove, h: Handle)
    requires |s.nodes| == |tree| && NotifyEnabled(tree, s, th, n)
    ensures ProgressMove(tree, s, th, NotifyApply(tree, s, th, n), h)
  {
  }

  lemma ReadProgress(tree: Tree, s: State, th: ThreadId, r: ReadMove, h: Handle)
    requires |s.nodes| == |tree| && ReadEnabled(tree, s, th, r)
    ensures ProgressMove(tree, s, th, ReadApply(tree, s, th, r), h)
  {
  }

  lemma WaitProgress(tree: Tree, s: State, th: ThreadId, w: WaitMove, h: Handle)
    requires |s.nodes| == |tree| && WaitEnabled(tree, s, th, w)
    ensures ProgressMove(tree, s, th, WaitApply(tree, s, th, w), h)
  {
  }

  lemma StepProgress(tree: Tree, s: State, step: Step, h: Handle)
    requires |s.nodes| == |tree| && Enabled(tree, s, step) && |Apply(tree, s, step).nodes| == |tree|
    requires Progress(tree, s, At(s, step.th), h)
    requires h !in s.owner ==> h !in s.dead
    ensures ProgressMove(tree, s, step.th, Apply(tree, s, step), h)
  {
    match step
    case OfCheck(th, c) => CheckProgress(tree, s, th, c, h);
    case OfCancel(th, m) => CancelProgress(tree, s, th, m, h);
    case OfNotify(th, n) => NotifyProgress(tree, s, th, n, h);
    case OfRead(th, r) => ReadProgress(tree, s, th, r, h);
    case OfRegister(th, g) => RegisterProgress(tree, s, th, g, h);
    case OfWait(th, w) => WaitProgress(tree, s, th, w, h);
  }

  /** All of the above, for one step. */
  ghost predicate HandleFrame(tree: Tree, s: State, th: ThreadId, s': State, h: Handle) {
    && |s.nodes| == |tree| == |s'.nodes|
    && Keeps(s, th, s', h)
    && ProgressMove(tree, s, th, s', h)
    && (forall y :: 0 <= y < |tree| ==> HandleMove(s, th, s', h, y))
  }

  lemma StepHandleFrame(tree: Tree, s: State, step: Step, h: Handle)
    requires Inv(tree, s) && HandleInv(tree, s, h) && Enabled(tree, s, step)
    ensures HandleFrame(tree, s, step.th, Apply(tree, s, step), h)
  {
    var s' := Apply(tree, s, step);
    StepEvolves(tree, s, step);
    StepKeepsHandle(tree, s, step, h);
    StepProgress(tree, s, step, h);
    forall y | 0 <= y < |tree| ensures HandleMove(s, step.th, s', h, y) { StepHandleMove(tree, s, step, h, y); }
  }

  lemma FrameKeepsLists(tree: Tree, s: State, th: ThreadId, s': State, h: Handle, x: Token, y: Token)
    requires HandleFrame(tree, s, th, s', h) && h !in s'.dead
    ensures PushedBelow(tree, s.nodes, h, x, y) ==> PushedBelow(tree, s'.nodes, h, x, y)
    ensures PushedAll(tree, s.nodes, h, x) ==> PushedAll(tree, s'.nodes, h, x)
  {
    forall z | 0 <= z < |tree| && h in s.nodes[z].handles ensures h in s'.nodes[z].handles {
      assert HandleMove(s, th, s', h, z);
    }
    PushedStays(tree, s.nodes, s'.nodes, h, x, y);
  }

  lemma FrameKeepsProgress(tree: Tree, s: State, th: ThreadId, s': State, h: Handle, x: ThreadId)
    requires HandleFrame(tree, s, th, s', h) && Progress(tree, s, At(s, x), h)
    ensures Progress(tree, s', At(s', x), h)
  {
    if x != th {
      var pc := At(s, x);
      assert At(s', x) == pc;
      if Registers(pc, h) {
        assert pc == s.threads[x];
        var y := if pc.Pushing? || pc.Checking? || pc.Alerting? then pc.at else pc.tok;
        FrameKeepsLists(tree, s, th, s', h, pc.tok, y);
        if pc.Checking? || pc.Alerting? { assert HandleMove(s, th, s', h, pc.at); }
      }
    }
  }

  lemma FrameKeepsComplete(tree: Tree, s: State, th: ThreadId, s': State, h: Handle)
    requires HandleFrame(tree, s, th, s', h) && Complete(tree, s, h)
    ensures Complete(tree, s', h)
  {
    if h in s'.owner && h !in s'.dead && forall x :: !Registers(At(s', x), h) {
      if !Registers(At(s, th), h) {
        forall x ensures !Registers(At(s, x), h) { assert x != th ==> At(s', x) == At(s, x); }
        FrameKeepsLists(tree, s, th, s', h, s.owner[h], s.owner[h]);
      }
    }
  }

  lemma FrameKeepsChain(tree: Tree, s: State, th: ThreadId, s': State, h: Handle)
    requires Inv(tree, s) && HandleInv(tree, s, h) && HandleFrame(tree, s, th, s', h) && Inv(tree, s')
    ensures forall y :: 0 <= y < |tree| && h in s'.nodes[y].handles ==> OnChain(tree, s', h, y)
    ensures forall x :: At(s', x).Notifying? && h in At(s', x).rest ==> OnChain(tree, s', h, At(s', x).tok)
  {
    assert PcOk(tree, s, th, At(s, th)) && Progress(tree, s, At(s, th), h);
    forall y | 0 <= y < |tree| && h in s'.nodes[y].handles ensures OnChain(tree, s', h, y) {
      assert HandleMove(s, th, s', h, y);
    }
    forall x | At(s', x).Notifying? && h in At(s', x).rest ensures OnChain(tree, s', h, At(s', x).tok) {
      if x == th {
        assert PcOk(tree, s', th, At(s', th));
        assert HandleMove(s, th, s', h, At(s', th).tok);
      } else {
        assert At(s', x) == At(s, x);
      }
    }
  }

  lemma FrameKeepsCauses(tree: Tree, s: State, th: ThreadId, s': State, h: Handle)
    requires Inv(tree, s) && HandleInv(tree, s, h) && HandleFrame(tree, s, th, s', h) && Evolves(tree, s, th, s')
    ensures h in s'.notified ==> h in s'.owner && Caused(tree, s'.nodes, s'.owner[h])
  {
    if h in s'.notified {
      var pc := At(s, th);
      assert PcOk(tree, s, th, pc) && Progress(tree, s, pc, h);
      if h !in s.notified && pc.Notifying? { CauseBelow(tree, s.nodes, s.owner[h], pc.tok); }
      ChainGrows(tree, s.nodes, s'.nodes, s.owner[h]);
    }
  }

  lemma StepKeepsHandleInv(tree: Tree, s: State, step: Step, h: Handle)
    requires Inv(tree, s) && HandleInv(tree, s, h) && Enabled(tree, s, step)
    ensures Inv(tree, Apply(tree, s, step)) && HandleInv(tree, Apply(tree, s, step), h)
  {
    StepEvolves(tree, s, step);
    StepHandleFrame(tree, s, step, h);
    FrameKeepsHandleInv(tree, s, step.th, Apply(tree, s, step), h);
  }

  lemma FrameKeepsHandleInv(tree: Tree, s: State, th: ThreadId, s': State, h: Handle)
    requires Inv(tree, s) && HandleInv(tree, s, h) && Inv(tree, s')
    requires HandleFrame(tree, s, th, s', h) && Evolves(tree, s, th, s')
    ensures HandleInv(tree, s', h)
  {
    forall y | 0 <= y < |tree| ensures HandleOk(s', h, y) { MoveKeepsHandleOk(s, th, s', h, y); }
    forall x ensures Progress(tree, s', At(s', x), h) { FrameKeepsProgress(tree, s, th, s', h, x); }
    FrameKeepsChain(tree, s, th, s', h);
    FrameKeepsComplete(tree, s, th, s', h);
    FrameKeepsCauses(tree, s, th, s', h);
  }

  // ---------------------------------------------------------------------------
  // Over whole runs
  // ---------------------------------------------------------------------------

  lemma RunKeepsHandleInv(tree: Tree, states: seq<State>, steps: seq<Step>, k: nat, h: Handle)
    requires IsRun(tree, states, steps) && k < |states|
    ensures Inv(tree, states[k]) && HandleInv(tree, states[k], h)
  {
    var p := s => Inv(tree, s) && HandleInv(tree, s, h);
    forall s, step, s' | Next(tree)(s, step, s') && p(s) ensures p(s') { StepKeepsHandleInv(tree, s, step, h); }
    RunKeepsInv(tree, states, steps, 0);
    assert forall th :: At(Initial(tree), th) == Ready;
    Stays(Next(tree), p, states, steps, 0, k);
  }

  /** No cancel or escalate is between its flag and its last notification. */
  ghost predicate NotifiersDone(s: State) {
    forall th :: !At(s, th).Collecting? && !At(s, th).Notifying?
  }

  /** Whenever the threads that register `h` and those that notify are done, `h` has
      been notified exactly if its token is cancelled, whoever cancelled what above it
      and whenever. */
  lemma HandlesAreNotified(tree: Tree, states: seq<State>, steps: seq<Step>, k: nat, h: Handle)
    requires IsRun(tree, states, steps) && k < |states|
    requires h in states[k].owner && h !in states[k].dead
    requires NotifiersDone(states[k]) && forall th :: !Registers(At(states[k], th), h)
    ensures |states[k].nodes| == |tree|
    ensures h in states[k].notified <==> Cancelled(tree, states[k].nodes, states[k].owner[h])
  {
    RunKeepsHandleInv(tree, states, steps, k, h);
    SettledHandle(tree, states[k], h);
  }

  lemma SettledHandle(tree: Tree, s: State, h: Handle)
    requires Inv(tree, s) && HandleInv(tree, s, h) && h in s.owner && h !in s.dead
    requires NotifiersDone(s) && forall th :: !Registers(At(s, th), h)
    ensures h in s.notified <==> Cancelled(tree, s.nodes, s.owner[h])
  {
    CancelledMeansCaused(tree, s, s.owner[h]);
    if Caused(tree, s.nodes, s.owner[h]) {
      var y := CauseHasHandle(tree, s.nodes, h, s.owner[h]);
      assert HandleOk(s, h, y);
    }
  }

  /** A handle is never woken for nothing: at every moment, one that was notified has
      its token cancelled. */
  lemma NotifiedMeansCancelled(tree: Tree, states: seq<State>, steps: seq<Step>, k: nat, h: Handle)
    requires IsRun(tree, states, steps) && k < |states| && h in states[k].notified
    ensures |states[k].nodes| == |tree| && h in states[k].owner
    ensures Cancelled(tree, states[k].nodes, states[k].owner[h])
  {
    RunKeepsHandleInv(tree, states, steps, k, h);
    CancelledMeansCaused(tree, states[k], states[k].owner[h]);
  }
}
