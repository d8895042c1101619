/**
 The forest behind the streaming union-find: parent links with union by rank and
 path halving, and which nodes the links put together.
 */
module UnionFindForest {
  import opened Numbers

  newtype u8 = x: int | 0 <= x < 256

  /** A usize. */
  type Node = x: nat | x < 0x1_0000_0000_0000_0000

  datatype Forest = Forest(roots: seq<nat>, ranks: seq<u8>)

  /** The link of `x` stays inside the forest and leads to a strictly higher rank. */
  predicate LinkOk(f: Forest, x: nat)
    requires |f.roots| == |f.ranks| && x < |f.roots|
  {
    f.roots[x] < |f.roots| && (f.roots[x] != x ==> f.ranks[x] < f.ranks[f.roots[x]])
  }

  predicate Shape(f: Forest) {
    |f.roots| == |f.ranks| && forall x :: 0 <= x < |f.roots| ==> LinkOk(f, x)
  }

  predicate IsRoot(f: Forest, x: nat) {
    x < |f.roots| && f.roots[x] == x
  }

  /** The representative of `x`; a node the forest has not met stands for itself. */
  function Root(f: Forest, x: nat): (r: nat)
    requires Shape(f)
    ensures x < |f.roots| ==> IsRoot(f, r) && f.ranks[x] <= f.ranks[r]
    ensures x >= |f.roots| ==> r == x
    decreases if x < |f.roots| then 256 - f.ranks[x] as int else 0
  {
    if x >= |f.roots| || f.roots[x] == x then x else assert LinkOk(f, x); Root(f, f.roots[x])
  }

  // ---------------------------------------------------------------------------
  // The three changes
  // ---------------------------------------------------------------------------

  function Grown(f: Forest): Forest {
    Forest(f.roots + [|f.roots|], f.ranks + [0])
  }

  function Halved(f: Forest, x: nat): Forest
    requires Shape(f) && x < |f.roots|
  {
    assert LinkOk(f, x);
    f.(roots := f.roots[x := f.roots[f.roots[x]]])
  }

  /** `child`, a root, is hung under `parent`, a root, whose rank becomes `rank`. */
  function Linked(f: Forest, child: nat, parent: nat, rank: u8): Forest
    requires Shape(f) && child < |f.roots| && parent < |f.roots|
  {
    Forest(f.roots[child := parent], f.ranks[parent := rank])
  }

  lemma {:induction false} GrownRoot(f: Forest, x: nat)
    requires Shape(f)
    ensures Shape(Grown(f)) && Root(Grown(f), x) == Root(f, x)
    decreases if x < |f.roots| then 256 - f.ranks[x] as int else 0
  {
    GrownShape(f);
    if x < |f.roots| && f.roots[x] != x {
      assert LinkOk(f, x);
      GrownRoot(f, f.roots[x]);
    }
  }

  lemma GrownShape(f: Forest)
    requires Shape(f)
    ensures Shape(Grown(f))
  {
    var g := Grown(f);
    forall x | 0 <= x < |g.roots| ensures LinkOk(g, x) {
      if x < |f.roots| { assert LinkOk(f, x); }
    }
  }

  lemma HalvedShape(f: Forest, x: nat)
    requires Shape(f) && x < |f.roots|
    ensures Shape(Halved(f, x))
  {
    var g := Halved(f, x);
    assert LinkOk(f, x);
    assert LinkOk(f, f.roots[x]);
    forall z | 0 <= z < |g.roots| ensures LinkOk(g, z) { assert LinkOk(f, z); }
  }

  /** Path halving changes no element's representative. */
  lemma {:induction false} HalvedRoot(f: Forest, x: nat, z: nat)
    requires Shape(f) && x < |f.roots|
    ensures Shape(Halved(f, x)) && Root(Halved(f, x), z) == Root(f, z)
    decreases if z < |f.roots| then 256 - f.ranks[z] as int else 0
  {
    HalvedShape(f, x);
    if z < |f.roots| && f.roots[z] != z {
      var g := Halved(f, x);
      assert LinkOk(f, z) && LinkOk(f, f.roots[z]) && LinkOk(g, z);
      HalvedRoot(f, x, g.roots[z]);
    }
  }

  predicate Linkable(f: Forest, child: nat, parent: nat, rank: u8) {
    && Shape(f) && IsRoot(f, child) && IsRoot(f, parent) && child != parent
    && f.ranks[child] < rank && f.ranks[parent] <= rank
  }

  lemma LinkedShape(f: Forest, child: nat, parent: nat, rank: u8)
    requires Linkable(f, child, parent, rank)
    ensures Shape(Linked(f, child, parent, rank))
  {
    var g := Linked(f, child, parent, rank);
    forall z | 0 <= z < |g.roots| ensures LinkOk(g, z) { assert LinkOk(f, z); }
  }

  /** Linking two roots puts their trees together and moves nothing else. */
  lemma {:induction false} LinkedRoot(f: Forest, child: nat, parent: nat, rank: u8, z: nat)
    requires Linkable(f, child, parent, rank)
    ensures Shape(Linked(f, child, parent, rank))
    ensures Root(Linked(f, child, parent, rank), z) == if Root(f, z) == child then parent else Root(f, z)
    decreases if z < |f.roots| then 256 - f.ranks[z] as int else 0
  {
    var g := Linked(f, child, parent, rank);
    LinkedShape(f, child, parent, rank);
    if z < |f.roots| && f.roots[z] != z {
      assert LinkOk(f, z);
      LinkedRoot(f, child, parent, rank, f.roots[z]);
    } else if z == child {
      assert Root(g, parent) == parent;
    }
  }

  // ---------------------------------------------------------------------------
  // Ranks stay logarithmic
  // ---------------------------------------------------------------------------

  function Members(f: Forest, r: nat): set<nat>
    requires Shape(f)
  {
    set z | 0 <= z < |f.roots| && Root(f, z) == r
  }

  /** A root of rank `k` has at least 2^k members. */
  predicate Heavy(f: Forest, r: nat)
    requires Shape(f)
  {
    IsRoot(f, r) ==> |Members(f, r)| >= Pow2(f.ranks[r] as nat)
  }

  predicate Balanced(f: Forest) {
    Shape(f) && forall r :: 0 <= r < |f.roots| ==> Heavy(f, r)
  }

  function Below(n: nat): (s: set<nat>)
    ensures |s| == n && forall z: nat :: z in s <==> z < n
  {
    if n == 0 then {} else Below(n - 1) + {n - 1}
  }

  lemma SubsetSize(a: set<nat>, b: set<nat>)
    requires a <= b
    ensures |a| <= |b|
  {
    assert b == a + (b - a);
  }

  /** Every rank is at most the binary logarithm of the number of nodes. */
  lemma RankIsLogarithmic(f: Forest, x: nat)
    requires Balanced(f) && x < |f.roots|
    ensures Pow2(f.ranks[x] as nat) <= |f.roots|
  {
    var r := Root(f, x);
    assert Heavy(f, r);
    SubsetSize(Members(f, r), Below(|f.roots|));
    Pow2Grows(f.ranks[x] as nat, f.ranks[r] as nat);
  }

  /** So with indices that fit a usize, no rank overflows a u8. */
  lemma RankFits(f: Forest, x: nat)
    requires Balanced(f) && x < |f.roots| && |f.roots| <= 0x1_0000_0000_0000_0000
    ensures f.ranks[x] <= 64
  {
    RankIsLogarithmic(f, x);
    Pow2Of64();
    if f.ranks[x] > 64 {
      assert Pow2(65) == 2 * Pow2(64);
      Pow2Grows(65, f.ranks[x] as nat);
    }
  }

  lemma GrownBalanced(f: Forest)
    requires Balanced(f)
    ensures Balanced(Grown(f))
  {
    var g, n := Grown(f), |f.roots|;
    GrownRoot(f, n);
    forall r | 0 <= r <= n ensures Heavy(g, r) {
      if r == n {
        assert Pow2(0) == 1;
        assert n in Members(g, n);
        SubsetSize({n}, Members(g, n));
      } else if IsRoot(g, r) {
        assert Heavy(f, r);
        forall z | z in Members(f, r) ensures z in Members(g, r) { GrownRoot(f, z); }
        SubsetSize(Members(f, r), Members(g, r));
      }
    }
  }

  lemma HalvedBalanced(f: Forest, x: nat)
    requires Balanced(f) && x < |f.roots|
    ensures Balanced(Halved(f, x))
  {
    var g := Halved(f, x);
    HalvedShape(f, x);
    forall r | 0 <= r < |g.roots| ensures Heavy(g, r) {
      if IsRoot(g, r) {
        HalvedRoot(f, x, r);
        RootIsRoot(f, r);
        assert Heavy(f, r);
        forall z | 0 <= z < |f.roots| ensures Root(g, z) == Root(f, z) { HalvedRoot(f, x, z); }
        assert Members(g, r) == Members(f, r);
      }
    }
  }

  lemma RootIsRoot(f: Forest, r: nat)
    requires Shape(f) && r < |f.roots|
    ensures Root(f, r) == r <==> IsRoot(f, r)
  {
  }

  lemma LinkedMembers(f: Forest, child: nat, parent: nat, rank: u8)
    requires Linkable(f, child, parent, rank)
    ensures Shape(Linked(f, child, parent, rank))
    ensures Members(Linked(f, child, parent, rank), parent) == Members(f, child) + Members(f, parent)
    ensures forall r :: 0 <= r < |f.roots| && r != child && r != parent ==>
              Members(Linked(f, child, parent, rank), r) == Members(f, r)
  {
    var g := Linked(f, child, parent, rank);
    LinkedRoot(f, child, parent, rank, child);
    forall z | 0 <= z < |f.roots| ensures Root(g, z) == if Root(f, z) == child then parent else Root(f, z) {
      LinkedRoot(f, child, parent, rank, z);
    }
  }

  lemma DisjointSize(a: set<nat>, b: set<nat>)
    requires a !! b
    ensures |a + b| == |a| + |b|
  {
  }

  /** The rank union by rank gives the parent: its own, if it is the higher of the two,
      or one more, if they are equal. */
  predicate ByRank(f: Forest, child: nat, parent: nat, rank: u8)
    requires Linkable(f, child, parent, rank)
  {
    rank == f.ranks[parent] || (f.ranks[child] == f.ranks[parent] && rank == f.ranks[child] + 1)
  }

  lemma ParentStaysHeavy(f: Forest, child: nat, parent: nat, rank: u8)
    requires Linkable(f, child, parent, rank) && ByRank(f, child, parent, rank)
    requires Heavy(f, child) && Heavy(f, parent)
    ensures |Members(f, child) + Members(f, parent)| >= Pow2(rank as nat)
  {
    DisjointSize(Members(f, child), Members(f, parent));
  }

  /** Union by rank keeps every root heavy. */
  lemma LinkedBalanced(f: Forest, child: nat, parent: nat, rank: u8)
    requires Balanced(f) && Linkable(f, child, parent, rank) && ByRank(f, child, parent, rank)
    ensures Balanced(Linked(f, child, parent, rank))
  {
    var g := Linked(f, child, parent, rank);
    LinkedMembers(f, child, parent, rank);
    assert Heavy(f, child) && Heavy(f, parent);
    ParentStaysHeavy(f, child, parent, rank);
    forall r | 0 <= r < |g.roots| ensures Heavy(g, r) {
      if r != parent && r != child {
        assert Heavy(f, r);
        assert Members(g, r) == Members(f, r);
      }
    }
  }

  // ---------------------------------------------------------------------------
  // Counting roots
  // ---------------------------------------------------------------------------

  function RootSet(f: Forest): set<nat> {
    set r | 0 <= r < |f.roots| && f.roots[r] == r
  }

  lemma GrownCount(f: Forest)
    requires Shape(f)
    ensures |RootSet(Grown(f))| == |RootSet(f)| + 1
  {
    var g, n := Grown(f), |f.roots|;
    assert forall r :: 0 <= r < n ==> g.roots[r] == f.roots[r];
    assert g.roots[n] == n;
    assert RootSet(g) == RootSet(f) + {n};
  }

  lemma HalvedCount(f: Forest, x: nat)
    requires Shape(f) && x < |f.roots|
    ensures RootSet(Halved(f, x)) == RootSet(f)
  {
    assert LinkOk(f, x);
    assert LinkOk(f, f.roots[x]);
  }

  lemma LinkedCount(f: Forest, child: nat, parent: nat, rank: u8)
    requires Linkable(f, child, parent, rank)
    ensures |RootSet(Linked(f, child, parent, rank))| == |RootSet(f)| - 1
  {
    assert RootSet(Linked(f, child, parent, rank)) == RootSet(f) - {child};
  }
}
