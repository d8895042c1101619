/**
 What every run of queueing and popping gives: the newest process's streams, oldest
 first, each of them once.
 */
module InboxRuns {
  import opened Numbers
  import opened Options
  import opened Inbox

  datatype Op = Arrive(key: Key, a: Accepted) | Pop(key: Key)

  function After(b: Box, op: Op): Box {
    match op
    case Arrive(key, a) => Queued(b, key, a)
    case Pop(key) => Popped(b, key)
  }

  function AfterAll(ops: seq<Op>): Box {
    if ops == [] then EMPTY_BOX else After(AfterAll(ops[..|ops| - 1]), ops[|ops| - 1])
  }

  /** The stream operation `i` returns. */
  function Returned(ops: seq<Op>, i: nat): Option<Accepted>
    requires i < |ops|
  {
    if ops[i].Pop? then Result(AfterAll(ops[..i]), ops[i].key) else None
  }

  // ---------------------------------------------------------------------------
  // The newest process
  // ---------------------------------------------------------------------------

  /** The highest incarnation that arrived from `peer`, under any node set. */
  function HighestSeen(ops: seq<Op>, peer: Peer): (h: nat)
    ensures forall i :: 0 <= i < |ops| && ops[i].Arrive? && ops[i].key.0 == peer ==> ops[i].a.incarnation <= h
    ensures h == 0 || exists i :: 0 <= i < |ops| && ops[i].Arrive? && ops[i].key.0 == peer && ops[i].a.incarnation == h
  {
    if ops == [] then 0
    else
      var last, before := ops[|ops| - 1], HighestSeen(ops[..|ops| - 1], peer);
      if last.Arrive? && last.key.0 == peer then Max(before, last.a.incarnation) else before
  }

  lemma {:induction false} HighestIsSeen(ops: seq<Op>, peer: Peer)
    ensures HighestOf(AfterAll(ops), peer) == HighestSeen(ops, peer)
    decreases |ops|
  {
    if ops != [] { HighestIsSeen(ops[..|ops| - 1], peer); }
  }

  lemma {:induction false} HighestGrows(ops: seq<Op>, i: nat, peer: Peer)
    requires i <= |ops|
    ensures HighestSeen(ops[..i], peer) <= HighestSeen(ops, peer)
    decreases |ops|
  {
    if i < |ops| {
      HighestGrows(ops[..|ops| - 1], i, peer);
      assert ops[..|ops| - 1][..i] == ops[..i];
    } else {
      assert ops[..i] == ops;
    }
  }

  // ---------------------------------------------------------------------------
  // Each stream once, in order
  // ---------------------------------------------------------------------------

  /** The streams that arrived under `key`, in order. */
  function Arrived(ops: seq<Op>, key: Key): seq<Accepted> {
    if ops == [] then []
    else
      var last, before := ops[|ops| - 1], Arrived(ops[..|ops| - 1], key);
      if last.Arrive? && last.key == key then before + [last.a] else before
  }

  /** The streams that pops took from `key`'s queue, in order. */
  function Departed(ops: seq<Op>, key: Key): seq<Accepted> {
    if ops == [] then []
    else
      var last, init := ops[|ops| - 1], ops[..|ops| - 1];
      if last == Pop(key) then Departed(init, key) + QueueOf(AfterAll(init), key)[..Taken(AfterAll(init), key)]
      else Departed(init, key)
  }

  /** Every stream that arrived was taken by a pop or is still queued, exactly once, and
      the order within a key is the order of arrival. */
  lemma {:induction false} EachStreamOnce(ops: seq<Op>, key: Key)
    ensures Arrived(ops, key) == Departed(ops, key) + QueueOf(AfterAll(ops), key)
    decreases |ops|
  {
    if ops != [] {
      var init, last := ops[..|ops| - 1], ops[|ops| - 1];
      EachStreamOnce(init, key);
      if last == Pop(key) {
        var queue, n := QueueOf(AfterAll(init), key), Taken(AfterAll(init), key);
        assert queue == queue[..n] + queue[n..];
      }
    }
  }

  /** A pop discards only stale streams, and only ahead of the one it returns, which is
      the last it takes; it returns none only if it took every one. */
  lemma PopTakesStaleThenFresh(b: Box, key: Key)
    ensures Result(b, key).Some? ==>
              && 0 < Taken(b, key) <= |QueueOf(b, key)|
              && Result(b, key).value == QueueOf(b, key)[Taken(b, key) - 1]
              && Result(b, key).value.incarnation >= HighestOf(b, key.0)
              && forall i :: 0 <= i < Taken(b, key) - 1 ==> QueueOf(b, key)[i].incarnation < HighestOf(b, key.0)
    ensures Result(b, key).None? ==>
              && Taken(b, key) == |QueueOf(b, key)|
              && forall i :: 0 <= i < |QueueOf(b, key)| ==> QueueOf(b, key)[i].incarnation < HighestOf(b, key.0)
  {
  }

  lemma {:induction false} ArrivedBound(ops: seq<Op>, key: Key, a: Accepted)
    requires a in Arrived(ops, key)
    ensures exists i :: 0 <= i < |ops| && ops[i] == Arrive(key, a)
    ensures a.incarnation <= HighestSeen(ops, key.0)
    decreases |ops|
  {
    var init, last := ops[..|ops| - 1], ops[|ops| - 1];
    if last == Arrive(key, a) {
      assert ops[|ops| - 1] == Arrive(key, a);
    } else {
      ArrivedBound(init, key, a);
      var i :| 0 <= i < |init| && init[i] == Arrive(key, a);
      assert ops[i] == Arrive(key, a);
    }
  }

  /** A popped stream arrived under the key it was asked for, and is of the newest
      process seen from its peer so far. */
  lemma PopsTheNewest(ops: seq<Op>, i: nat)
    requires i < |ops| && Returned(ops, i).Some?
    ensures Returned(ops, i).value.incarnation == HighestSeen(ops[..i], ops[i].key.0)
    ensures exists j :: 0 <= j < i && ops[j] == Arrive(ops[i].key, Returned(ops, i).value)
  {
    var before, key, a := ops[..i], ops[i].key, Returned(ops, i).value;
    HighestIsSeen(before, key.0);
    EachStreamOnce(before, key);
    assert a in Arrived(before, key);
    ArrivedBound(before, key, a);
    var j :| 0 <= j < |before| && before[j] == Arrive(key, a);
    assert ops[j] == Arrive(key, a);
  }

  /** So the incarnations popped from one peer never go down, across node sets. */
  lemma IncarnationsNeverGoDown(ops: seq<Op>, i: nat, j: nat)
    requires i <= j < |ops| && Returned(ops, i).Some? && Returned(ops, j).Some? && ops[i].key.0 == ops[j].key.0
    ensures Returned(ops, i).value.incarnation <= Returned(ops, j).value.incarnation
  {
    PopsTheNewest(ops, i);
    PopsTheNewest(ops, j);
    HighestGrows(ops[..j], i, ops[i].key.0);
    assert ops[..j][..i] == ops[..i];
  }
}
