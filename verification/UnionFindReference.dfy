/**
 Union-find without the forest: a table of every node's leader and of the leaders'
 ranks. It says exactly which pairs the operator emits.
 */
module UnionFindReference {
  import opened Connectivity

  /** A node that is not in the table leads itself, with rank 0. */
  datatype Leaders = Leaders(leader: map<nat, nat>, rank: map<nat, nat>)

  const NO_LEADERS := Leaders(map[], map[])

  function LeaderOf(l: Leaders, z: nat): nat {
    if z in l.leader then l.leader[z] else z
  }

  function RankOf(l: Leaders, z: nat): nat {
    if z in l.rank then l.rank[z] else 0
  }

  /** Everyone led by `child` is now led by `parent`, whose rank becomes `rank`. */
  function Renamed(l: Leaders, child: nat, parent: nat, rank: nat): Leaders {
    Leaders(map z | z in l.leader.Keys + {child, parent} :: if LeaderOf(l, z) == child then parent else LeaderOf(l, z),
            l.rank[parent := rank])
  }

  /** An edge joins the two leaders' followers, under the one of higher rank; under the
      first end's, with a rank higher by one, if the ranks are equal. */
  function Joined(l: Leaders, e: Edge): Leaders {
    var x, y := LeaderOf(l, e.0), LeaderOf(l, e.1);
    if x == y then l
    else if RankOf(l, x) < RankOf(l, y) then Renamed(l, x, y, RankOf(l, y))
    else if RankOf(l, x) > RankOf(l, y) then Renamed(l, y, x, RankOf(l, x))
    else Renamed(l, y, x, RankOf(l, x) + 1)
  }

  /** The pair an edge emits: the two leaders, if they differ. */
  function Emitted(l: Leaders, e: Edge): seq<Edge> {
    var x, y := LeaderOf(l, e.0), LeaderOf(l, e.1);
    if x == y then [] else [(x, y)]
  }

  function LeadersOf(input: seq<Edge>): Leaders {
    if input == [] then NO_LEADERS else Joined(LeadersOf(input[..|input| - 1]), input[|input| - 1])
  }

  /** The pairs emitted for `input`, in order. */
  function MergesOf(input: seq<Edge>): seq<Edge> {
    if input == [] then []
    else MergesOf(input[..|input| - 1]) + Emitted(LeadersOf(input[..|input| - 1]), input[|input| - 1])
  }

  lemma OneEdgeMore(input: seq<Edge>, e: Edge)
    ensures LeadersOf(input + [e]) == Joined(LeadersOf(input), e)
    ensures MergesOf(input + [e]) == MergesOf(input) + Emitted(LeadersOf(input), e)
  {
    assert (input + [e])[..|input|] == input;
  }

  /** The edge itself is what comes out if and only if its ends differ and each leads
      itself. */
  lemma ForwardsTheEdgeExactly(l: Leaders, e: Edge)
    ensures Emitted(l, e) == [e] <==> e.0 != e.1 && LeaderOf(l, e.0) == e.0 && LeaderOf(l, e.1) == e.1
  {
  }

  /** Not always: of the edges (0, 1) and (1, 2) the second comes out as (0, 2). */
  lemma EdgeIsNotForwarded()
    ensures MergesOf([(0, 1), (1, 2)]) == [(0, 1), (0, 2)]
  {
    var first: seq<Edge> := [(0, 1)];
    OneEdgeMore([], (0, 1));
    assert [] + first == first;
    OneEdgeMore(first, (1, 2));
    assert first + [(1, 2)] == [(0, 1), (1, 2)];
  }

  // ---------------------------------------------------------------------------
  // The table is right about connectivity
  // ---------------------------------------------------------------------------

  /** The merges connect `z` to its leader. */
  ghost predicate Reaches(l: Leaders, merges: seq<Edge>, z: nat) {
    Connected(merges, z, LeaderOf(l, z))
  }

  function Leading(l: Leaders): nat -> nat {
    (z: nat) => LeaderOf(l, z)
  }

  /** The merges connect each node to its leader, no input edge crosses between two
      leaders' followers, and the input connects what the merges do. */
  ghost predicate Tracks(l: Leaders, input: seq<Edge>, merges: seq<Edge>) {
    && (forall z: nat :: Reaches(l, merges, z))
    && (forall e {:trigger SameColour(Leading(l), e)} :: e in input ==> SameColour(Leading(l), e))
    && (forall e {:trigger Bridged(input, e)} :: e in merges ==> Bridged(input, e))
  }

  lemma LeaderConnected(l: Leaders, input: seq<Edge>, merges: seq<Edge>, x: nat)
    requires Tracks(l, input, merges)
    ensures Connected(input, x, LeaderOf(l, x))
  {
    assert Reaches(l, merges, x);
    ConnectedBridged(merges, input, x, LeaderOf(l, x));
  }

  /** The merge of the leaders of `x` and `y` is bridged by the edge between them. */
  lemma MergeIsBridged(l: Leaders, input: seq<Edge>, merges: seq<Edge>, x: nat, y: nat)
    requires Tracks(l, input, merges)
    ensures Connected(input + [(x, y)], LeaderOf(l, x), LeaderOf(l, y))
  {
    var edges := input + [(x, y)];
    LeaderConnected(l, input, merges, x);
    LeaderConnected(l, input, merges, y);
    ConnectedMore(input, [(x, y)], x, LeaderOf(l, x));
    ConnectedMore(input, [(x, y)], y, LeaderOf(l, y));
    ConnectedBack(edges, x, LeaderOf(l, x));
    ConnectedEdge(edges, x, y);
    ConnectedThrough(edges, LeaderOf(l, x), x, y);
    ConnectedThrough(edges, LeaderOf(l, x), y, LeaderOf(l, y));
  }

  /** The new leader of everyone whose leader was `was`. */
  function NewLeader(l: Leaders, e: Edge, was: nat): nat {
    var x, y := LeaderOf(l, e.0), LeaderOf(l, e.1);
    if was != x && was != y then was else if RankOf(l, x) < RankOf(l, y) then y else x
  }

  /** What joining does to one node's leader. */
  lemma JoinedLeader(l: Leaders, e: Edge, z: nat)
    ensures LeaderOf(Joined(l, e), z) == NewLeader(l, e, LeaderOf(l, z))
  {
  }

  lemma JoinedReaches(l: Leaders, e: Edge, merges: seq<Edge>, z: nat)
    requires Reaches(l, merges, z)
    ensures Reaches(Joined(l, e), merges + Emitted(l, e), z)
  {
    var was, now, more := LeaderOf(l, z), LeaderOf(Joined(l, e), z), merges + Emitted(l, e);
    JoinedLeader(l, e, z);
    ConnectedMore(merges, Emitted(l, e), z, was);
    if now != was {
      assert Adjacent(more, was, now);
      ConnectedEdge(more, was, now);
      ConnectedThrough(more, z, was, now);
    }
  }

  lemma JoinedTracks(l: Leaders, e: Edge, input: seq<Edge>, merges: seq<Edge>)
    requires Tracks(l, input, merges)
    ensures Tracks(Joined(l, e), input + [e], merges + Emitted(l, e))
  {
    var m := Joined(l, e);
    forall z: nat ensures Reaches(m, merges + Emitted(l, e), z) {
      assert Reaches(l, merges, z);
      JoinedReaches(l, e, merges, z);
    }
    forall d | d in input + [e] ensures SameColour(Leading(m), d) {
      assert d in input ==> SameColour(Leading(l), d);
      JoinedLeader(l, e, d.0);
      JoinedLeader(l, e, d.1);
    }
    forall d | d in merges + Emitted(l, e) ensures Bridged(input + [e], d) {
      if d in merges {
        assert Bridged(input, d);
        ConnectedMore(input, [e], d.0, d.1);
      } else {
        MergeIsBridged(l, input, merges, e.0, e.1);
      }
    }
  }

  lemma {:induction false} TableTracks(input: seq<Edge>)
    ensures Tracks(LeadersOf(input), input, MergesOf(input))
    decreases |input|
  {
    if input == [] {
      forall z: nat ensures Reaches(NO_LEADERS, [], z) { ConnectedSelf([], z); }
    } else {
      var init, last := input[..|input| - 1], input[|input| - 1];
      TableTracks(init);
      JoinedTracks(LeadersOf(init), last, init, MergesOf(init));
      assert input == init + [last];
    }
  }

  /** The pairs emitted for any edges connect exactly the nodes those edges do, which are
      the nodes with one leader. */
  lemma SameComponents(input: seq<Edge>, x: nat, y: nat)
    ensures Connected(input, x, y) <==> Connected(MergesOf(input), x, y)
    ensures Connected(input, x, y) <==> LeaderOf(LeadersOf(input), x) == LeaderOf(LeadersOf(input), y)
  {
    var l, merges := LeadersOf(input), MergesOf(input);
    TableTracks(input);
    if Connected(merges, x, y) { ConnectedBridged(merges, input, x, y); }
    if Connected(input, x, y) { ConnectedKeepsColour(Leading(l), input, x, y); }
    if LeaderOf(l, x) == LeaderOf(l, y) {
      assert Reaches(l, merges, x) && Reaches(l, merges, y);
      ConnectedBack(merges, y, LeaderOf(l, y));
      ConnectedThrough(merges, x, LeaderOf(l, x), y);
    }
  }

  /** Nothing for an edge whose ends the edges `before` connect; for any other a pair
      naming a node of each of the two components. */
  ghost predicate Answers(before: seq<Edge>, e: Edge, pairs: seq<Edge>) {
    if Connected(before, e.0, e.1) then pairs == []
    else |pairs| == 1 && Connected(before, e.0, pairs[0].0) && Connected(before, e.1, pairs[0].1)
  }

  /** An edge emits a pair if and only if the edges before it did not connect its ends. */
  lemma EmitsTheAnswer(before: seq<Edge>, e: Edge)
    ensures Answers(before, e, Emitted(LeadersOf(before), e))
  {
    SameComponents(before, e.0, e.1);
    TableTracks(before);
    LeaderConnected(LeadersOf(before), before, MergesOf(before), e.0);
    LeaderConnected(LeadersOf(before), before, MergesOf(before), e.1);
  }

  // ---------------------------------------------------------------------------
  // Batches
  // ---------------------------------------------------------------------------

  /** What a batch emits after the edges `before`: each edge's pair, in order. */
  function PartOf(before: seq<Edge>, data: seq<Edge>): seq<Edge> {
    if data == [] then []
    else
      var init, last := data[..|data| - 1], data[|data| - 1];
      PartOf(before, init) + Emitted(LeadersOf(before + init), last)
  }

  lemma {:induction false} PartIsWhatMergesGain(before: seq<Edge>, data: seq<Edge>)
    ensures MergesOf(before + data) == MergesOf(before) + PartOf(before, data)
    decreases |data|
  {
    if data == [] {
      assert before + data == before;
    } else {
      var init, last := data[..|data| - 1], data[|data| - 1];
      PartIsWhatMergesGain(before, init);
      LastApart(before, data, |init|);
      OneEdgeMore(before + init, last);
      Regroup(MergesOf(before), PartOf(before, init), Emitted(LeadersOf(before + init), last));
    }
  }

  lemma LastApart(before: seq<Edge>, data: seq<Edge>, i: nat)
    requires i < |data|
    ensures before + data[..i + 1] == before + data[..i] + [data[i]]
    ensures data[..i + 1][..i] == data[..i]
    ensures data[..|data|] == data
  {
  }

  lemma Regroup(a: seq<Edge>, b: seq<Edge>, c: seq<Edge>)
    ensures a + b + c == a + (b + c)
  {
  }

  type Batches = seq<(nat, seq<Edge>)>

  function EdgesOf(batches: Batches): seq<Edge> {
    if batches == [] then [] else EdgesOf(batches[..|batches| - 1]) + batches[|batches| - 1].1
  }

  /** The parts of the batches that have any, each under its batch's time. */
  function Passed(before: seq<Edge>, batches: Batches): Batches {
    if batches == [] then []
    else
      var init, last := batches[..|batches| - 1], batches[|batches| - 1];
      var part := PartOf(before + EdgesOf(init), last.1);
      Passed(before, init) + if part == [] then [] else [(last.0, part)]
  }

  lemma OnePartMore(passed: Batches, time: nat, part: seq<Edge>)
    ensures EdgesOf(passed + if part == [] then [] else [(time, part)]) == EdgesOf(passed) + part
  {
    if part == [] { assert passed + [] == passed; } else { assert (passed + [(time, part)])[..|passed|] == passed; }
  }

  /** Together they are the pairs emitted for all the edges. */
  lemma {:induction false} PassedIsEverything(before: seq<Edge>, batches: Batches)
    ensures MergesOf(before + EdgesOf(batches)) == MergesOf(before) + EdgesOf(Passed(before, batches))
    decreases |batches|
  {
    if batches == [] {
      assert before + EdgesOf(batches) == before;
    } else {
      var init, last := batches[..|batches| - 1], batches[|batches| - 1];
      var middle, part, passed := before + EdgesOf(init), PartOf(before + EdgesOf(init), last.1), Passed(before, init);
      PassedIsEverything(before, init);
      Regroup(before, EdgesOf(init), last.1);
      PartIsWhatMergesGain(middle, last.1);
      OnePartMore(passed, last.0, part);
      Regroup(MergesOf(before), EdgesOf(passed), part);
    }
  }

  /** What batch `k` passes on: its time, and the pairs of its edges. */
  function PassedBy(before: seq<Edge>, batches: Batches, k: nat): (nat, seq<Edge>)
    requires k < |batches|
  {
    (batches[k].0, PartOf(before + EdgesOf(batches[..k]), batches[k].1))
  }

  /** Of `parts`, `passed` are those `from` these places, in order: all that have pairs. */
  ghost predicate PassedInOrder(parts: Batches, passed: Batches, from: seq<nat>) {
    && |from| == |passed|
    && (forall i, j :: 0 <= i < j < |from| ==> from[i] < from[j])
    && (forall i :: 0 <= i < |from| ==> from[i] < |parts| && passed[i] == parts[from[i]])
    && (forall k :: 0 <= k < |parts| ==> (k in from <==> parts[k].1 != []))
  }

  lemma OnePartPasses(parts: Batches, part: (nat, seq<Edge>), passed: Batches, from: seq<nat>)
    requires PassedInOrder(parts, passed, from)
    ensures if part.1 == [] then PassedInOrder(parts + [part], passed, from)
            else PassedInOrder(parts + [part], passed + [part], from + [|parts|])
  {
  }

  /** Each batch's time and pairs. */
  function PartsOf(before: seq<Edge>, batches: Batches): (parts: Batches)
    ensures |parts| == |batches|
    ensures forall k :: 0 <= k < |batches| ==> parts[k] == PassedBy(before, batches, k)
  {
    seq(|batches|, k requires 0 <= k < |batches| => PassedBy(before, batches, k))
  }

  lemma OneBatchMore(before: seq<Edge>, batches: Batches)
    requires batches != []
    ensures PartsOf(before, batches) ==
            PartsOf(before, batches[..|batches| - 1]) + [PassedBy(before, batches, |batches| - 1)]
  {
    forall k | 0 <= k < |batches| - 1 ensures
          PassedBy(before, batches[..|batches| - 1], k) == PassedBy(before, batches, k)
    {
      assert batches[..|batches| - 1][..k] == batches[..k];
    }
  }

  /** Exactly the batches that have pairs pass them on, one part each, in order. */
  lemma {:induction false} PassesEachPartOnce(before: seq<Edge>, batches: Batches) returns (from: seq<nat>)
    ensures PassedInOrder(PartsOf(before, batches), Passed(before, batches), from)
    decreases |batches|
  {
    from := [];
    if batches != [] {
      var k, init := |batches| - 1, batches[..|batches| - 1];
      from := PassesEachPartOnce(before, init);
      var part := PassedBy(before, batches, k);
      OneBatchMore(before, batches);
      OnePartPasses(PartsOf(before, init), part, Passed(before, init), from);
      if part.1 == [] {
        assert Passed(before, init) + [] == Passed(before, init);
      } else {
        from := from + [k];
      }
    }
  }
}
