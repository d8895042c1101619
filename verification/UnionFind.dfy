/**
 The streaming union-find operator: batches of edges in, the merges they cause out.
 */
module UnionFind {
  import opened Connectivity
  import opened UnionFindForest
  import opened UnionFindReference

  // ---------------------------------------------------------------------------
  // The forest and the table of leaders
  // ---------------------------------------------------------------------------

  function RankIn(f: Forest, z: nat): nat {
    if z < |f.ranks| then f.ranks[z] as nat else 0
  }

  predicate MirrorsAt(f: Forest, l: Leaders, z: nat)
    requires Shape(f)
  {
    Root(f, z) == LeaderOf(l, z) && RankIn(f, z) == RankOf(l, z)
  }

  /** Every node's root is its leader in the table. */
  ghost predicate Mirrors(f: Forest, l: Leaders)
    requires Shape(f)
  {
    forall z: nat :: MirrorsAt(f, l, z)
  }

  /** No node changed its representative. */
  ghost predicate SameRoots(f: Forest, g: Forest) {
    Shape(f) && Shape(g) && forall z: nat :: Root(g, z) == Root(f, z)
  }

  lemma MirrorsSameRoots(f: Forest, g: Forest, l: Leaders)
    requires SameRoots(f, g) && Mirrors(f, l) && forall z: nat :: RankIn(g, z) == RankIn(f, z)
    ensures Mirrors(g, l)
  {
    forall z: nat ensures MirrorsAt(g, l, z) { assert MirrorsAt(f, l, z) && RankIn(g, z) == RankIn(f, z); }
  }

  lemma MirrorsRenamed(f: Forest, child: nat, parent: nat, rank: u8, l: Leaders)
    requires Linkable(f, child, parent, rank) && Mirrors(f, l)
    ensures Shape(Linked(f, child, parent, rank))
    ensures Mirrors(Linked(f, child, parent, rank), Renamed(l, child, parent, rank as nat))
  {
    LinkedShape(f, child, parent, rank);
    var g, m := Linked(f, child, parent, rank), Renamed(l, child, parent, rank as nat);
    forall z: nat ensures MirrorsAt(g, m, z) {
      assert MirrorsAt(f, l, z);
      LinkedRoot(f, child, parent, rank, z);
    }
  }

  /** The choice between the roots of `e`'s ends that union by rank makes. */
  predicate MergesByRank(f: Forest, child: nat, parent: nat, rank: u8, e: Edge) {
    && Linkable(f, child, parent, rank)
    && if child == Root(f, e.0) then parent == Root(f, e.1) && rank == f.ranks[parent]
       else
         && child == Root(f, e.1) && parent == Root(f, e.0)
         && rank as int == f.ranks[parent] as int + if f.ranks[child] == f.ranks[parent] then 1 else 0
  }

  /** Hanging one root under the other is what the table does. */
  lemma LinkedIsJoined(f: Forest, child: nat, parent: nat, rank: u8, l: Leaders, e: Edge)
    requires MergesByRank(f, child, parent, rank, e) && Mirrors(f, l)
    ensures Joined(l, e) == Renamed(l, child, parent, rank as nat)
    ensures Emitted(l, e) == [(Root(f, e.0), Root(f, e.1))]
  {
    assert MirrorsAt(f, l, e.0) && MirrorsAt(f, l, e.1) && MirrorsAt(f, l, child) && MirrorsAt(f, l, parent);
  }

  // ---------------------------------------------------------------------------
  // Everything the operator keeps true
  // ---------------------------------------------------------------------------

  /** After the edges `input`: ranks are balanced, roots are the table's leaders, and each
      merge has used up one root. */
  ghost predicate Sound(f: Forest, input: seq<Edge>) {
    && Balanced(f) && |f.roots| <= 0x1_0000_0000_0000_0000
    && Mirrors(f, LeadersOf(input))
    && |MergesOf(input)| + |RootSet(f)| == |f.roots|
  }

  lemma SoundGrown(f: Forest, input: seq<Edge>)
    requires Sound(f, input) && |f.roots| < 0x1_0000_0000_0000_0000
    ensures Sound(Grown(f), input) && SameRoots(f, Grown(f))
  {
    GrownBalanced(f);
    GrownCount(f);
    forall z: nat ensures Root(Grown(f), z) == Root(f, z) { GrownRoot(f, z); }
    MirrorsSameRoots(f, Grown(f), LeadersOf(input));
  }

  lemma SoundHalved(f: Forest, x: nat, input: seq<Edge>)
    requires Sound(f, input) && x < |f.roots|
    ensures Sound(Halved(f, x), input) && SameRoots(f, Halved(f, x))
  {
    HalvedBalanced(f, x);
    HalvedCount(f, x);
    forall z: nat ensures Root(Halved(f, x), z) == Root(f, z) { HalvedRoot(f, x, z); }
    MirrorsSameRoots(f, Halved(f, x), LeadersOf(input));
  }

  /** Union by rank keeps all of it. */
  lemma SoundLinked(f: Forest, child: nat, parent: nat, rank: u8, input: seq<Edge>, e: Edge)
    requires Sound(f, input) && MergesByRank(f, child, parent, rank, e)
    ensures Sound(Linked(f, child, parent, rank), input + [e])
  {
    LinkedBalanced(f, child, parent, rank);
    LinkedCount(f, child, parent, rank);
    MirrorsRenamed(f, child, parent, rank, LeadersOf(input));
    LinkedIsJoined(f, child, parent, rank, LeadersOf(input), e);
    OneEdgeMore(input, e);
  }

  /** The two representatives, if they differ. */
  function RootPair(f: Forest, e: Edge): seq<Edge>
    requires Shape(f)
  {
    if Root(f, e.0) == Root(f, e.1) then [] else [(Root(f, e.0), Root(f, e.1))]
  }

  /** What the two finds tell about an edge. */
  lemma EdgeFacts(f: Forest, input: seq<Edge>, e: Edge)
    requires Sound(f, input)
    ensures RootPair(f, e) == Emitted(LeadersOf(input), e)
    ensures Root(f, e.0) == Root(f, e.1) ==> Sound(f, input + [e])
  {
    assert MirrorsAt(f, LeadersOf(input), e.0) && MirrorsAt(f, LeadersOf(input), e.1);
    OneEdgeMore(input, e);
  }

  /** The nodes with one root are those the edges received connect. */
  lemma RootsAreComponents(f: Forest, input: seq<Edge>, x: nat, y: nat)
    requires Sound(f, input)
    ensures Connected(input, x, y) <==> Root(f, x) == Root(f, y)
  {
    SameComponents(input, x, y);
    assert MirrorsAt(f, LeadersOf(input), x) && MirrorsAt(f, LeadersOf(input), y);
  }

  /** Every component of the nodes met holds exactly one root, so the merges number
      the nodes less the components. */
  lemma OneRootPerComponent(f: Forest, input: seq<Edge>, x: nat)
    requires Sound(f, input) && x < |f.roots|
    ensures Root(f, x) in RootSet(f) && Connected(input, x, Root(f, x))
    ensures forall r :: r in RootSet(f) && Connected(input, x, r) ==> r == Root(f, x)
    ensures |MergesOf(input)| == |f.roots| - |RootSet(f)|
  {
    RootsAreComponents(f, input, x, Root(f, x));
    forall r | r in RootSet(f) && Connected(input, x, r) ensures r == Root(f, x) {
      RootsAreComponents(f, input, x, r);
    }
  }

  // ---------------------------------------------------------------------------
  // The operator
  // ---------------------------------------------------------------------------

  /** Both ends are usize values. */
  predicate Fits(e: Edge) {
    e.0 < 0x1_0000_0000_0000_0000 && e.1 < 0x1_0000_0000_0000_0000
  }

  class Operator {
    var roots: seq<nat>
    var ranks: seq<u8>
    /** Every edge received. */
    ghost var input: seq<Edge>

    function Value(): Forest
      reads this
    {
      Forest(roots, ranks)
    }

    ghost predicate Valid()
      reads this
    {
      Sound(Value(), input)
    }

    constructor ()
      ensures Valid() && input == [] && roots == []
    {
      roots, ranks, input := [], [], [];
      new;
      assert RootSet(Value()) == {};
      assert forall z: nat :: MirrorsAt(Value(), NO_LEADERS, z);
    }

    /** Makes room for node `m`; new nodes stand alone. */
    method Grow(m: Node)
      requires Valid()
      modifies this`roots, this`ranks
      ensures Valid() && |roots| == if m < |old(roots)| then |old(roots)| else m + 1
      ensures SameRoots(old(Value()), Value())
    {
      while |roots| <= m
        invariant Valid() && SameRoots(old(Value()), Value())
        invariant |roots| == |old(roots)| || |old(roots)| < |roots| <= m + 1
      {
        SoundGrown(Value(), input);
        roots, ranks := roots + [|roots|], ranks + [0];
      }
    }

    /** Follows the links from `start` to its root, halving the path on the way. */
    method Find(start: nat) returns (x: nat)
      requires Valid() && start < |roots|
      modifies this`roots
      ensures Valid() && |roots| == |old(roots)|
      ensures x == old(Root(Value(), start)) && IsRoot(Value(), x)
      ensures SameRoots(old(Value()), Value())
    {
      x := start;
      while x != roots[x]
        invariant Valid() && |roots| == |old(roots)| && x < |roots|
        invariant Root(Value(), x) == old(Root(Value(), start))
        invariant SameRoots(old(Value()), Value())
        decreases 256 - ranks[x] as int
      {
        SoundHalved(Value(), x, input);
        assert LinkOk(Value(), x);
        assert LinkOk(Value(), roots[x]);
        roots := roots[x := roots[roots[x]]];
        x := roots[x];
      }
    }

    /** Hangs one of two different roots, those of `e`'s ends, under the other. */
    method Union(x: nat, y: nat, ghost e: Edge)
      requires Valid() && IsRoot(Value(), x) && IsRoot(Value(), y) && x != y
      requires x == Root(Value(), e.0) && y == Root(Value(), e.1)
      modifies this
      ensures Valid() && input == old(input) + [e]
    {
      ghost var f := Value();
      RankFits(f, x);
      if ranks[x] < ranks[y] {
        SoundLinked(f, x, y, ranks[y], input, e);
        assert ranks[y := ranks[y]] == ranks;
        roots := roots[x := y];
      } else if ranks[x] > ranks[y] {
        SoundLinked(f, y, x, ranks[x], input, e);
        assert ranks[x := ranks[x]] == ranks;
        roots := roots[y := x];
      } else {
        SoundLinked(f, y, x, ranks[x] + 1, input, e);
        roots := roots[y := x];
        ranks := ranks[x := ranks[x] + 1];
      }
      input := input + [e];
    }

    /** One edge: emits its ends' representatives, if and only if they were not connected
        yet; so it emits the edge itself if and only if each end was its own. */
    method Add(e: Edge) returns (pairs: seq<Edge>)
      requires Valid() && Fits(e)
      modifies this
      ensures Valid() && input == old(input) + [e]
      ensures pairs == old(RootPair(Value(), e)) == Emitted(LeadersOf(old(input)), e)
      ensures Answers(old(input), e, pairs)
      ensures pairs == [e] <==> e.0 != e.1 && old(Root(Value(), e.0)) == e.0 && old(Root(Value(), e.1)) == e.1
    {
      var (a, b) := e;
      EmitsTheAnswer(input, e);
      Grow(if a < b then b else a);
      var x := Find(a);
      var y := Find(b);
      EdgeFacts(Value(), input, e);
      if x != y {
        pairs := [(x, y)];
        Union(x, y, e);
      } else {
        pairs := [];
        input := input + [e];
      }
    }

    /** One batch: each edge's pair, in order. */
    method Batch(data: seq<Edge>) returns (newMerges: seq<Edge>)
      requires Valid() && forall e :: e in data ==> Fits(e)
      modifies this
      ensures Valid() && input == old(input) + data
      ensures newMerges == PartOf(old(input), data)
    {
      newMerges := [];
      for i := 0 to |data|
        invariant Valid() && input == old(input) + data[..i]
        invariant newMerges == PartOf(old(input), data[..i])
      {
        assert Fits(data[i]);
        LastApart(old(input), data, i);
        var pairs := Add(data[i]);
        newMerges := newMerges + pairs;
      }
      assert data[..|data|] == data;
    }

    /** Takes every waiting batch, and passes on what those that merge anything emit. */
    method Drain(batches: Batches) returns (output: Batches)
      requires Valid() && forall e :: e in EdgesOf(batches) ==> Fits(e)
      modifies this
      ensures Valid() && input == old(input) + EdgesOf(batches)
      ensures output == Passed(old(input), batches)
    {
      output := [];
      for i := 0 to |batches|
        invariant Valid() && input == old(input) + EdgesOf(batches[..i])
        invariant output == Passed(old(input), batches[..i])
      {
        OneMoreBatch(batches, i);
        OneMorePassed(old(input), batches, i);
        var newMerges := Batch(batches[i].1);
        if newMerges != [] {
          output := output + [(batches[i].0, newMerges)];
        }
      }
      assert batches[..|batches|] == batches;
    }
  }

  lemma OneMorePassed(before: seq<Edge>, batches: Batches, i: nat)
    requires i < |batches|
    ensures var part := PartOf(before + EdgesOf(batches[..i]), batches[i].1);
            Passed(before, batches[..i + 1]) ==
            Passed(before, batches[..i]) + if part == [] then [] else [(batches[i].0, part)]
    ensures before + EdgesOf(batches[..i + 1]) == before + EdgesOf(batches[..i]) + batches[i].1
  {
    assert batches[..i + 1][..i] == batches[..i];
    Regroup(before, EdgesOf(batches[..i]), batches[i].1);
  }

  lemma {:induction false} OneMoreBatch(batches: Batches, i: nat)
    requires i < |batches|
    ensures EdgesOf(batches[..i + 1]) == EdgesOf(batches[..i]) + batches[i].1
    ensures forall e :: e in batches[i].1 ==> e in EdgesOf(batches)
    decreases |batches|
  {
    var init := batches[..|batches| - 1];
    assert batches[..i + 1][..i] == batches[..i];
    if i < |init| {
      OneMoreBatch(init, i);
      assert init[i] == batches[i];
    }
  }
}
