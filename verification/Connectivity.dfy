/** Which nodes a list of undirected edges connects. */
module Connectivity {

  type Edge = (nat, nat)

  predicate Adjacent(edges: seq<Edge>, a: nat, b: nat) {
    (a, b) in edges || (b, a) in edges
  }

  predicate IsPath(edges: seq<Edge>, path: seq<nat>) {
    |path| > 0 && forall i :: 0 <= i < |path| - 1 ==> Hop(edges, path, i)
  }

  predicate Hop(edges: seq<Edge>, path: seq<nat>, i: nat)
    requires i + 1 < |path|
  {
    Adjacent(edges, path[i], path[i + 1])
  }

  ghost predicate Connected(edges: seq<Edge>, x: nat, y: nat) {
    exists path :: IsPath(edges, path) && path[0] == x && path[|path| - 1] == y
  }

  lemma ConnectedSelf(edges: seq<Edge>, x: nat)
    ensures Connected(edges, x, x)
  {
    assert IsPath(edges, [x]);
  }

  lemma ConnectedEdge(edges: seq<Edge>, x: nat, y: nat)
    requires Adjacent(edges, x, y)
    ensures Connected(edges, x, y)
  {
    assert IsPath(edges, [x, y]);
  }

  lemma ConnectedBack(edges: seq<Edge>, x: nat, y: nat)
    requires Connected(edges, x, y)
    ensures Connected(edges, y, x)
  {
    var path :| IsPath(edges, path) && path[0] == x && path[|path| - 1] == y;
    var back := seq(|path|, i requires 0 <= i < |path| => path[|path| - 1 - i]);
    forall i | 0 <= i < |back| - 1 ensures Hop(edges, back, i) { assert Hop(edges, path, |path| - 2 - i); }
    assert IsPath(edges, back) && back[0] == y && back[|back| - 1] == x;
  }

  lemma ConnectedThrough(edges: seq<Edge>, x: nat, y: nat, z: nat)
    requires Connected(edges, x, y) && Connected(edges, y, z)
    ensures Connected(edges, x, z)
  {
    var p :| IsPath(edges, p) && p[0] == x && p[|p| - 1] == y;
    var q :| IsPath(edges, q) && q[0] == y && q[|q| - 1] == z;
    var path := p + q[1..];
    forall i | 0 <= i < |path| - 1 ensures Hop(edges, path, i) {
      if i < |p| - 1 { assert Hop(edges, p, i); } else { assert Hop(edges, q, i + 1 - |p|); }
    }
    assert IsPath(edges, path) && path[0] == x && path[|path| - 1] == z;
  }

  ghost predicate Bridged(edges: seq<Edge>, e: Edge) {
    Connected(edges, e.0, e.1)
  }

  lemma InitIsPath(edges: seq<Edge>, path: seq<nat>)
    requires IsPath(edges, path) && |path| > 1
    ensures IsPath(edges, path[..|path| - 1])
  {
    var init := path[..|path| - 1];
    forall i | 0 <= i < |init| - 1 ensures Hop(edges, init, i) { assert Hop(edges, path, i); }
  }

  /** If each edge of `a` is bridged by `b`, what `a` connects `b` connects. */
  lemma {:induction false} PathBridged(a: seq<Edge>, b: seq<Edge>, path: seq<nat>)
    requires IsPath(a, path) && forall e {:trigger Bridged(b, e)} :: e in a ==> Bridged(b, e)
    ensures Connected(b, path[0], path[|path| - 1])
    decreases |path|
  {
    if |path| == 1 {
      ConnectedSelf(b, path[0]);
    } else {
      var init := path[..|path| - 1];
      var u, v := path[|path| - 2], path[|path| - 1];
      assert Hop(a, path, |path| - 2);
      assert IsPath(a, init) by { InitIsPath(a, path); }
      PathBridged(a, b, init);
      if (u, v) in a { assert Bridged(b, (u, v)); } else { assert Bridged(b, (v, u)); ConnectedBack(b, v, u); }
      ConnectedThrough(b, path[0], u, v);
    }
  }

  lemma ConnectedBridged(a: seq<Edge>, b: seq<Edge>, x: nat, y: nat)
    requires Connected(a, x, y) && forall e {:trigger Bridged(b, e)} :: e in a ==> Bridged(b, e)
    ensures Connected(b, x, y)
  {
    var path :| IsPath(a, path) && path[0] == x && path[|path| - 1] == y;
    PathBridged(a, b, path);
  }

  lemma ConnectedMore(a: seq<Edge>, more: seq<Edge>, x: nat, y: nat)
    requires Connected(a, x, y)
    ensures Connected(a + more, x, y)
  {
    var path :| IsPath(a, path) && path[0] == x && path[|path| - 1] == y;
    forall i | 0 <= i < |path| - 1 ensures Hop(a + more, path, i) { assert Hop(a, path, i); }
    assert IsPath(a + more, path);
  }

  predicate SameColour(colour: nat -> nat, e: Edge) {
    colour(e.0) == colour(e.1)
  }

  /** A colouring that no edge crosses is the same at both ends of a path. */
  lemma {:induction false} PathKeepsColour(colour: nat -> nat, edges: seq<Edge>, path: seq<nat>)
    requires IsPath(edges, path) && forall e {:trigger SameColour(colour, e)} :: e in edges ==> SameColour(colour, e)
    ensures colour(path[0]) == colour(path[|path| - 1])
    decreases |path|
  {
    if |path| > 1 {
      var init := path[..|path| - 1];
      assert Hop(edges, path, |path| - 2);
      assert IsPath(edges, init) by { InitIsPath(edges, path); }
      PathKeepsColour(colour, edges, init);
      var u, v := path[|path| - 2], path[|path| - 1];
      assert SameColour(colour, (u, v)) || SameColour(colour, (v, u));
    }
  }

  lemma ConnectedKeepsColour(colour: nat -> nat, edges: seq<Edge>, x: nat, y: nat)
    requires Connected(edges, x, y) && forall e {:trigger SameColour(colour, e)} :: e in edges ==> SameColour(colour, e)
    ensures colour(x) == colour(y)
  {
    var path :| IsPath(edges, path) && path[0] == x && path[|path| - 1] == y;
    PathKeepsColour(colour, edges, path);
  }
}
