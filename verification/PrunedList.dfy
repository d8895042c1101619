/**
 The list of weak references that both the task registry and the token tree keep:
 dead entries are pruned when it doubles past its last live size.
 */
module PrunedList {
  import opened Numbers

  /** One entry: a weak reference to a task, or a registration of a wake handle. */
  type Entry = nat

  const MIN_PRUNE_AT := 32

  datatype List = List(items: seq<Entry>, pruneAt: nat)

  const NEW_LIST := List([], 0)

  /** A push, and the entries that are live at that moment. */
  datatype Push = Push(item: Entry, live: set<Entry>)

  predicate Prunes(l: List) {
    |l.items| >= Max(l.pruneAt, MIN_PRUNE_AT)
  }

  function Retained(items: seq<Entry>, live: set<Entry>): (kept: seq<Entry>)
    ensures |kept| <= |items|
    ensures forall x :: x in kept <==> x in items && x in live
  {
    if items == [] then []
    else
      var last := items[|items| - 1];
      Retained(items[..|items| - 1], live) + if last in live then [last] else []
  }

  function Pushed(l: List, p: Push): List {
    var l' := if Prunes(l) then var kept := Retained(l.items, p.live); List(kept, 2 * |kept|) else l;
    l'.(items := l'.items + [p.item])
  }

  /** The entries a push looks at to prune. */
  function Looks(l: List): nat {
    if Prunes(l) then |l.items| else 0
  }

  function After(pushes: seq<Push>): List {
    if pushes == [] then NEW_LIST else Pushed(After(pushes[..|pushes| - 1]), pushes[|pushes| - 1])
  }

  /** The entries all the prunes so far have looked at. */
  function Scanned(pushes: seq<Push>): nat {
    if pushes == [] then 0
    else Scanned(pushes[..|pushes| - 1]) + Looks(After(pushes[..|pushes| - 1]))
  }

  /** How many entries the last prune retained, none before the first. */
  function LastRetained(pushes: seq<Push>): nat {
    if pushes == [] then 0
    else
      var init := pushes[..|pushes| - 1];
      if Prunes(After(init)) then |Retained(After(init).items, pushes[|pushes| - 1].live)| else LastRetained(init)
  }

  // ---------------------------------------------------------------------------
  // It stays short, at little cost
  // ---------------------------------------------------------------------------

  /** The list is never longer than 32 or twice what the last prune retained, and all
      prunes together have looked at no more than two entries a push: each push since
      the last prune is still to pay for two. */
  lemma {:induction false} ShortAndCheap(pushes: seq<Push>)
    ensures var l, kept := After(pushes), LastRetained(pushes);
            && l.pruneAt == 2 * kept
            && kept <= |l.items| <= Max(32, 2 * kept)
            && Scanned(pushes) <= 2 * (|pushes| - (|l.items| - kept))
    decreases |pushes|
  {
    if pushes != [] { ShortAndCheap(pushes[..|pushes| - 1]); }
  }

  /** A push looks at the list exactly when it is not shorter than 32 and twice what the
      last prune retained; then at all of it. */
  lemma PrunesExactly(pushes: seq<Push>)
    ensures var l := After(pushes);
            Looks(l) == if |l.items| >= 32 && |l.items| >= 2 * LastRetained(pushes) then |l.items| else 0
  {
    ShortAndCheap(pushes);
  }

  lemma ScansTwoPerPush(pushes: seq<Push>)
    ensures Scanned(pushes) <= 2 * |pushes|
  {
    ShortAndCheap(pushes);
  }

  // ---------------------------------------------------------------------------
  // Nothing live is lost
  // ---------------------------------------------------------------------------

  /** An entry that is live at every push after its own is still in the list. */
  lemma {:induction false} LiveEntriesStay(pushes: seq<Push>, i: nat)
    requires i < |pushes| && forall k :: i < k < |pushes| ==> pushes[i].item in pushes[k].live
    ensures pushes[i].item in After(pushes).items
    decreases |pushes|
  {
    var init := pushes[..|pushes| - 1];
    if i < |init| { LiveEntriesStay(init, i); }
  }

  function Items(pushes: seq<Push>): seq<Entry> {
    if pushes == [] then [] else Items(pushes[..|pushes| - 1]) + [pushes[|pushes| - 1].item]
  }

  /** `a` is `b` with some entries left out. */
  predicate IsSubsequence(a: seq<Entry>, b: seq<Entry>)
    decreases |b|
  {
    || a == []
    || (b != [] && IsSubsequence(a, b[..|b| - 1]))
    || (b != [] && a[|a| - 1] == b[|b| - 1] && IsSubsequence(a[..|a| - 1], b[..|b| - 1]))
  }

  lemma {:induction false} SubsequenceOfItself(a: seq<Entry>)
    ensures IsSubsequence(a, a)
  {
    if a != [] { SubsequenceOfItself(a[..|a| - 1]); }
  }

  lemma {:induction false} InitIsSubsequence(a: seq<Entry>, b: seq<Entry>)
    requires IsSubsequence(a, b) && a != []
    ensures IsSubsequence(a[..|a| - 1], b)
    decreases |b|
  {
    if IsSubsequence(a, b[..|b| - 1]) { InitIsSubsequence(a, b[..|b| - 1]); }
  }

  lemma {:induction false} SubsequenceOfSubsequence(a: seq<Entry>, b: seq<Entry>, c: seq<Entry>)
    requires IsSubsequence(a, b) && IsSubsequence(b, c)
    ensures IsSubsequence(a, c)
    decreases |b| + |c|
  {
    if a != [] {
      if IsSubsequence(b, c[..|c| - 1]) {
        SubsequenceOfSubsequence(a, b, c[..|c| - 1]);
      } else if IsSubsequence(a, b[..|b| - 1]) {
        InitIsSubsequence(b, c);
        SubsequenceOfSubsequence(a, b[..|b| - 1], c);
      } else {
        SubsequenceOfSubsequence(a[..|a| - 1], b[..|b| - 1], c[..|c| - 1]);
      }
    }
  }

  lemma OneMore(a: seq<Entry>, b: seq<Entry>, x: Entry)
    requires IsSubsequence(a, b)
    ensures IsSubsequence(a + [x], b + [x])
  {
    assert (a + [x])[..|a|] == a && (b + [x])[..|b|] == b;
  }

  lemma {:induction false} RetainedKeepsOrder(items: seq<Entry>, live: set<Entry>)
    ensures IsSubsequence(Retained(items, live), items)
    decreases |items|
  {
    if items != [] {
      var init, last := items[..|items| - 1], items[|items| - 1];
      RetainedKeepsOrder(init, live);
      if last in live {
        OneMore(Retained(init, live), init, last);
        assert items == init + [last];
      } else {
        assert Retained(items, live) == Retained(init, live);
      }
    }
  }

  /** The entries stay in the order they were pushed in. */
  lemma {:induction false} OrderStays(pushes: seq<Push>)
    ensures IsSubsequence(After(pushes).items, Items(pushes))
    decreases |pushes|
  {
    if pushes != [] {
      var init, last := pushes[..|pushes| - 1], pushes[|pushes| - 1];
      OrderStays(init);
      var l := After(init);
      if Prunes(l) {
        RetainedKeepsOrder(l.items, last.live);
        SubsequenceOfSubsequence(Retained(l.items, last.live), l.items, Items(init));
        OneMore(Retained(l.items, last.live), Items(init), last.item);
      } else {
        OneMore(l.items, Items(init), last.item);
      }
    }
  }

  // ---------------------------------------------------------------------------
  // In place
  // ---------------------------------------------------------------------------

  class WeakList {
    var items: seq<Entry>
    var pruneAt: nat

    function Value(): List
      reads this
    {
      List(items, pruneAt)
    }

    constructor ()
      ensures Value() == NEW_LIST
    {
      items, pruneAt := [], 0;
    }

    method Add(item: Entry, live: set<Entry>)
      modifies this
      ensures Value() == Pushed(old(Value()), Push(item, live))
    {
      if |items| >= Max(pruneAt, MIN_PRUNE_AT) {
        Retain(live);
        pruneAt := 2 * |items|;
      }
      items := items + [item];
    }

    /** Vec::retain: each entry in turn, keeping the live ones. */
    method Retain(live: set<Entry>)
      modifies this`items
      ensures items == Retained(old(items), live)
    {
      var kept: seq<Entry> := [];
      for i := 0 to |items|
        invariant items == old(items) && kept == Retained(items[..i], live)
      {
        assert items[..i + 1][..i] == items[..i];
        if items[i] in live {
          kept := kept + [items[i]];
        }
      }
      assert items[..|items|] == items;
      items := kept;
    }
  }
}
