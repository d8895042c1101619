/**
 The registry's live list and a token's wake handles are pruned lists: what the two
 protocols allow a push to drop covers what it does drop.
 */
module ListPruning {
  import opened PrunedList
  import Executor = ExecutorTasks
  import Tasks = TaskProtocol
  import Tokens = CancellationTokens

  /** The entries of the live list that LiveTasks::push retains. */
  function Unfinished(s: Executor.System): set<Entry> {
    set u | u in s.live && u in s.tasks && !s.tasks[u].dropped && s.tasks[u].state != Tasks.Done
  }

  /** The registrations that WakeRegistrations::push retains. */
  function Upgradable(handles: seq<Entry>, dead: set<Entry>): set<Entry> {
    set h | h in handles && h !in dead
  }

  /** What a push leaves ahead of the new entry. */
  function KeptBy(l: List, p: Push): seq<Entry> {
    if Prunes(l) then Retained(l.items, p.live) else l.items
  }

  lemma PushedIsKept(l: List, p: Push)
    ensures Pushed(l, p).items == KeptBy(l, p) + [p.item]
  {
  }

  /** LiveTasks::push is the registering thread's step, whenever it prunes. */
  lemma TasksArePushed(s: Executor.System, th: Tasks.ThreadId, pruneAt: nat)
    requires Executor.At(s, th).Registering?
    ensures var t := Executor.At(s, th).t;
            var p := Push(t, Unfinished(s));
            var move := Executor.PushLive(KeptBy(List(s.live, pruneAt), p));
            && Executor.QueueEnabled(s, th, move)
            && Executor.QueueApply(s, th, move).live == Pushed(List(s.live, pruneAt), p).items
  {
    PushedIsKept(List(s.live, pruneAt), Push(Executor.At(s, th).t, Unfinished(s)));
  }

  /** WakeRegistrations::push is the registering thread's step, whenever it prunes. */
  lemma HandlesArePushed(tree: Tokens.Tree, s: Tokens.State, th: Tokens.ThreadId, pruneAt: nat)
    requires Tokens.At(s, th).Pushing? && Tokens.InTree(tree, s, Tokens.At(s, th).at)
    ensures var at, h := Tokens.At(s, th).at, Tokens.At(s, th).h;
            var p := Push(h, Upgradable(s.nodes[at].handles, s.dead));
            var move := Tokens.Push(KeptBy(List(s.nodes[at].handles, pruneAt), p));
            && Tokens.RegisterEnabled(tree, s, th, move)
            && Tokens.RegisterApply(tree, s, th, move).nodes[at].handles ==
               Pushed(List(s.nodes[at].handles, pruneAt), p).items
  {
    var at := Tokens.At(s, th).at;
    PushedIsKept(List(s.nodes[at].handles, pruneAt), Push(Tokens.At(s, th).h, Upgradable(s.nodes[at].handles, s.dead)));
  }
}
