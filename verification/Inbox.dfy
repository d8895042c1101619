/**
 The inbox of accepted streams: queued under the peer and node set their prefixes
 name, and popped past those of processes that have been replaced.
 */
module Inbox {
  import opened Numbers
  import opened Options

  type Peer = string
  type NodeSet = string
  /** Which accepted connection it is. */
  type Stream = nat

  type Key = (Peer, NodeSet)
  datatype Accepted = Accepted(incarnation: nat, stream: Stream)

  /** Each key's streams, oldest first, and the highest incarnation each peer's prefixes
      carried. */
  datatype Box = Box(queues: map<Key, seq<Accepted>>, highest: map<Peer, nat>)

  const EMPTY_BOX := Box(map[], map[])

  function QueueOf(b: Box, key: Key): seq<Accepted> {
    if key in b.queues then b.queues[key] else []
  }

  function HighestOf(b: Box, peer: Peer): nat {
    if peer in b.highest then b.highest[peer] else 0
  }

  function Queued(b: Box, key: Key, a: Accepted): Box {
    Box(b.queues[key := QueueOf(b, key) + [a]], b.highest[key.0 := Max(HighestOf(b, key.0), a.incarnation)])
  }

  /** How many streams at the front are stale. */
  function Stale(queue: seq<Accepted>, highest: nat): (n: nat)
    ensures n <= |queue|
    ensures forall i :: 0 <= i < n ==> queue[i].incarnation < highest
    ensures n < |queue| ==> queue[n].incarnation >= highest
  {
    if queue == [] || queue[0].incarnation >= highest then 0 else 1 + Stale(queue[1..], highest)
  }

  /** What a pop takes off the front: the stale streams, and the one it returns. */
  function Taken(b: Box, key: Key): nat {
    var queue, n := QueueOf(b, key), Stale(QueueOf(b, key), HighestOf(b, key.0));
    if n < |queue| then n + 1 else n
  }

  function Result(b: Box, key: Key): Option<Accepted> {
    var queue, n := QueueOf(b, key), Stale(QueueOf(b, key), HighestOf(b, key.0));
    if n < |queue| then Some(queue[n]) else None
  }

  function Popped(b: Box, key: Key): Box {
    if key in b.queues then b.(queues := b.queues[key := b.queues[key][Taken(b, key)..]]) else b
  }

  class LinkState {
    var queues: map<Key, seq<Accepted>>
    var highest: map<Peer, nat>

    function Value(): Box
      reads this
    {
      Box(queues, highest)
    }

    constructor ()
      ensures Value() == EMPTY_BOX
    {
      queues, highest := map[], map[];
    }

    method Queue(key: Key, a: Accepted)
      modifies this
      ensures Value() == Queued(old(Value()), key, a)
    {
      var peer := key.0;
      if peer !in highest {
        highest := highest[peer := 0];
      }
      highest := highest[peer := Max(highest[peer], a.incarnation)];
      if key !in queues {
        queues := queues[key := []];
      }
      queues := queues[key := queues[key] + [a]];
    }

    /** Drops stale streams off the front until one is fresh. */
    method Pop(key: Key) returns (result: Option<Accepted>)
      modifies this`queues
      ensures Value() == Popped(old(Value()), key) && result == Result(old(Value()), key)
    {
      var top := if key.0 in highest then highest[key.0] else 0;
      if key !in queues {
        return None;
      }
      var queue := queues[key];
      ghost var gone := 0;
      result := None;
      while queue != [] && result.None?
        invariant gone <= |queues[key]| && queue == queues[key][gone..]
        invariant result.None? ==> Stale(queues[key], top) == gone + Stale(queue, top)
        invariant result.Some? ==>
                    0 < gone && Stale(queues[key], top) == gone - 1 && result.value == queues[key][gone - 1]
        decreases |queue|
      {
        var accepted := queue[0];
        queue, gone := queue[1..], gone + 1;
        if accepted.incarnation >= top {
          result := Some(accepted);
        }
      }
      queues := queues[key := queue];
    }
  }
}
