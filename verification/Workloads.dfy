/**
 Checking a worker's output against what it must be: grouping by time, comparing as
 multisets and reporting the difference.
 */
module Workloads {
  import opened Options
  import opened IterativeLoop

  /** A record and its time. */
  type Timed = (nat, int)

  // ---------------------------------------------------------------------------
  // Sorting
  // ---------------------------------------------------------------------------

  predicate IsSorted(s: seq<int>) {
    forall i, j :: 0 <= i < j < |s| ==> s[i] <= s[j]
  }

  lemma SplitLast(s: seq<int>)
    requires s != []
    ensures s == s[..|s| - 1] + [s[|s| - 1]]
    ensures multiset(s) == multiset(s[..|s| - 1]) + multiset{s[|s| - 1]}
  {
    assert s == s[..|s| - 1] + [s[|s| - 1]];
  }

  function Insert(s: seq<int>, x: int): (r: seq<int>) {
    if s == [] || s[|s| - 1] <= x then s + [x] else Insert(s[..|s| - 1], x) + [s[|s| - 1]]
  }

  lemma {:induction false} InsertPermutes(s: seq<int>, x: int)
    ensures multiset(Insert(s, x)) == multiset(s) + multiset{x}
    decreases |s|
  {
    if s != [] && s[|s| - 1] > x {
      InsertPermutes(s[..|s| - 1], x);
      SplitLast(s);
    }
  }

  lemma {:induction false} InsertSorts(s: seq<int>, x: int)
    requires IsSorted(s)
    ensures IsSorted(Insert(s, x))
    ensures forall y :: y in Insert(s, x) ==> y == x || y in s
    decreases |s|
  {
    if s != [] && s[|s| - 1] > x {
      var init, last := s[..|s| - 1], s[|s| - 1];
      InsertSorts(init, x);
      var r := Insert(init, x);
      assert forall y :: y in r ==> y == x || y in init;
      assert forall i :: 0 <= i < |r| ==> r[i] in r && r[i] <= last;
    }
  }

  /** The sorted permutation. */
  function Sorted(s: seq<int>): seq<int> {
    if s == [] then [] else Insert(Sorted(s[..|s| - 1]), s[|s| - 1])
  }

  lemma {:induction false} SortedSorts(s: seq<int>)
    ensures IsSorted(Sorted(s)) && multiset(Sorted(s)) == multiset(s)
    decreases |s|
  {
    if s != [] {
      var init, last := s[..|s| - 1], s[|s| - 1];
      SortedSorts(init);
      InsertSorts(Sorted(init), last);
      InsertPermutes(Sorted(init), last);
      SplitLast(s);
    }
  }

  /** Equal multisets have equal greatest elements. */
  lemma SameLast(a: seq<int>, b: seq<int>)
    requires IsSorted(a) && IsSorted(b) && multiset(a) == multiset(b) && a != []
    ensures b != [] && a[|a| - 1] == b[|b| - 1]
  {
    var x := a[|a| - 1];
    assert x in multiset(b);
    assert x in b;
    var y := b[|b| - 1];
    assert y in multiset(a);
    assert y in a;
  }

  /** There is only one. */
  lemma {:induction false} SortedIsUnique(a: seq<int>, b: seq<int>)
    requires IsSorted(a) && IsSorted(b) && multiset(a) == multiset(b)
    ensures a == b
    decreases |a|
  {
    if a == [] {
      assert |multiset(b)| == |b| == 0;
    } else {
      SameLast(a, b);
      SplitLast(a);
      SplitLast(b);
      RemoveSame(multiset(a[..|a| - 1]), multiset(b[..|b| - 1]), a[|a| - 1]);
      SortedIsUnique(a[..|a| - 1], b[..|b| - 1]);
    }
  }

  lemma RemoveSame(m: multiset<int>, n: multiset<int>, x: int)
    requires m + multiset{x} == n + multiset{x}
    ensures m == n
  {
    assert m == m + multiset{x} - multiset{x} && n == n + multiset{x} - multiset{x};
  }

  // ---------------------------------------------------------------------------
  // Grouping by time
  // ---------------------------------------------------------------------------

  /** The values of time `t`, in order. */
  function ValuesAt(records: seq<Timed>, t: nat): seq<int> {
    if records == [] then []
    else
      var last := records[|records| - 1];
      ValuesAt(records[..|records| - 1], t) + if last.0 == t then [last.1] else []
  }

  lemma {:induction false} ValuesCount(records: seq<Timed>, t: nat, v: int)
    ensures multiset(ValuesAt(records, t))[v] == multiset(records)[(t, v)]
    decreases |records|
  {
    if records != [] {
      ValuesCount(records[..|records| - 1], t, v);
      assert records == records[..|records| - 1] + [records[|records| - 1]];
    }
  }

  /** Every time that has values, with those values sorted. */
  ghost predicate Groups(records: seq<Timed>, grouped: map<nat, seq<int>>) {
    forall t: nat ::
      && (t in grouped <==> ValuesAt(records, t) != [])
      && (t in grouped ==> grouped[t] == Sorted(ValuesAt(records, t)))
  }

  /** group: collects each time's records, then sorts each. */
  method Group(records: seq<Timed>) returns (grouped: map<nat, seq<int>>)
    ensures Groups(records, grouped)
  {
    grouped := map[];
    for i := 0 to |records|
      invariant forall t: nat :: t in grouped <==> ValuesAt(records[..i], t) != []
      invariant forall t: nat :: t in grouped ==> grouped[t] == ValuesAt(records[..i], t)
    {
      var (t, record) := records[i];
      assert records[..i + 1][..i] == records[..i];
      if t !in grouped {
        grouped := grouped[t := []];
      }
      grouped := grouped[t := grouped[t] + [record]];
    }
    assert records[..|records|] == records;
    grouped := map t | t in grouped :: Sorted(grouped[t]);
  }

  /** Two groupings are equal exactly if the records are, as a multiset. */
  lemma GroupsCompare(a: seq<Timed>, b: seq<Timed>, ga: map<nat, seq<int>>, gb: map<nat, seq<int>>)
    requires Groups(a, ga) && Groups(b, gb)
    ensures ga == gb <==> multiset(a) == multiset(b)
  {
    if multiset(a) == multiset(b) { SameGroups(a, b, ga, gb); }
    if ga == gb { SameRecords(a, b, ga); }
  }

  lemma SameGroups(a: seq<Timed>, b: seq<Timed>, ga: map<nat, seq<int>>, gb: map<nat, seq<int>>)
    requires Groups(a, ga) && Groups(b, gb) && multiset(a) == multiset(b)
    ensures ga == gb
  {
    forall t: nat ensures t in ga <==> t in gb { SameValues(a, b, t); }
    forall t: nat | t in ga ensures ga[t] == gb[t] { SameValues(a, b, t); }
  }

  lemma SameRecords(a: seq<Timed>, b: seq<Timed>, g: map<nat, seq<int>>)
    requires Groups(a, g) && Groups(b, g)
    ensures multiset(a) == multiset(b)
  {
    forall r: Timed ensures multiset(a)[r] == multiset(b)[r] { SameCount(a, b, g, r); }
    SameCounts(multiset(a), multiset(b));
  }

  lemma SameCount(a: seq<Timed>, b: seq<Timed>, g: map<nat, seq<int>>, r: Timed)
    requires Groups(a, g) && Groups(b, g)
    ensures multiset(a)[r] == multiset(b)[r]
  {
    ValuesCount(a, r.0, r.1);
    ValuesCount(b, r.0, r.1);
    SortedSorts(ValuesAt(a, r.0));
    SortedSorts(ValuesAt(b, r.0));
  }

  lemma SameValues(a: seq<Timed>, b: seq<Timed>, t: nat)
    requires multiset(a) == multiset(b)
    ensures Sorted(ValuesAt(a, t)) == Sorted(ValuesAt(b, t)) && (ValuesAt(a, t) == [] <==> ValuesAt(b, t) == [])
  {
    var va, vb := ValuesAt(a, t), ValuesAt(b, t);
    forall v: int ensures multiset(va)[v] == multiset(vb)[v] {
      ValuesCount(a, t, v);
      ValuesCount(b, t, v);
    }
    assert multiset(va) == multiset(vb);
    assert |va| == |multiset(va)| && |vb| == |multiset(vb)|;
    SortedSorts(va);
    SortedSorts(vb);
    SortedIsUnique(Sorted(va), Sorted(vb));
  }

  // ---------------------------------------------------------------------------
  // Reporting the difference
  // ---------------------------------------------------------------------------

  /** What only `a` holds, of two sorted lists. */
  function Only(a: seq<int>, b: seq<int>): seq<int>
    decreases |a| + |b|
  {
    if a == [] then []
    else if b == [] || a[0] < b[0] then [a[0]] + Only(a[1..], b)
    else if a[0] == b[0] then Only(a[1..], b[1..])
    else Only(a, b[1..])
  }

  lemma HeadOff(s: seq<int>)
    requires s != []
    ensures multiset(s) == multiset{s[0]} + multiset(s[1..])
  {
    assert s == [s[0]] + s[1..];
  }

  lemma TakeAbsent(x: int, m: multiset<int>, n: multiset<int>)
    requires x !in n
    ensures multiset{x} + m - n == multiset{x} + (m - n)
  {
  }

  lemma DropAbsent(x: int, m: multiset<int>, n: multiset<int>)
    requires x !in m
    ensures m - (multiset{x} + n) == m - n
  {
  }

  lemma CancelSame(x: int, m: multiset<int>, n: multiset<int>)
    ensures multiset{x} + m - (multiset{x} + n) == m - n
  {
  }

  /** The walk finds the multiset difference. */
  lemma {:induction false} OnlyIsDifference(a: seq<int>, b: seq<int>)
    requires IsSorted(a) && IsSorted(b)
    ensures multiset(Only(a, b)) == multiset(a) - multiset(b)
    decreases |a| + |b|
  {
    if a != [] {
      HeadOff(a);
      if b != [] { HeadOff(b); }
      if b == [] || a[0] < b[0] {
        OnlyIsDifference(a[1..], b);
        TakeAbsent(a[0], multiset(a[1..]), multiset(b));
      } else if a[0] == b[0] {
        OnlyIsDifference(a[1..], b[1..]);
        CancelSame(a[0], multiset(a[1..]), multiset(b[1..]));
      } else {
        OnlyIsDifference(a, b[1..]);
        DropAbsent(b[0], multiset(a), multiset(b[1..]));
      }
    }
  }

  /** difference: walks two sorted lists side by side. */
  method Difference(want: seq<int>, got: seq<int>) returns (missing: seq<int>, unexpected: seq<int>)
    requires IsSorted(want) && IsSorted(got)
    ensures multiset(missing) == multiset(want) - multiset(got)
    ensures multiset(unexpected) == multiset(got) - multiset(want)
  {
    missing, unexpected := Walk(want, got);
    OnlyIsDifference(want, got);
    OnlyIsDifference(got, want);
  }

  method Walk(want: seq<int>, got: seq<int>) returns (missing: seq<int>, unexpected: seq<int>)
    ensures missing == Only(want, got) && unexpected == Only(got, want)
  {
    missing, unexpected := [], [];
    var w, g := want, got;
    while w != [] || g != []
      invariant missing + Only(w, g) == Only(want, got) && unexpected + Only(g, w) == Only(got, want)
      decreases |w| + |g|
    {
      if w != [] && g != [] && w[0] == g[0] {
        w, g := w[1..], g[1..];
      } else if w != [] && (g == [] || w[0] < g[0]) {
        missing, w := missing + [w[0]], w[1..];
      } else {
        unexpected, g := unexpected + [g[0]], g[1..];
      }
    }
  }

  function AtTime(grouped: map<nat, seq<int>>, t: nat): seq<int> {
    if t in grouped then grouped[t] else []
  }

  predicate Ordered(grouped: map<nat, seq<int>>) {
    forall t :: t in grouped ==> IsSorted(grouped[t])
  }

  /** The two hold different records at `t`. */
  predicate Differ(expected: map<nat, seq<int>>, actual: map<nat, seq<int>>, t: nat) {
    multiset(AtTime(expected, t)) != multiset(AtTime(actual, t))
  }

  /** `entry` is what is missing and what is unexpected at `t`. */
  predicate Tells(expected: map<nat, seq<int>>, actual: map<nat, seq<int>>, t: nat, entry: (seq<int>, seq<int>)) {
    var want, got := multiset(AtTime(expected, t)), multiset(AtTime(actual, t));
    multiset(entry.0) == want - got && multiset(entry.1) == got - want
  }

  lemma NoDifference(want: multiset<int>, got: multiset<int>, missing: seq<int>, unexpected: seq<int>)
    requires multiset(missing) == want - got && multiset(unexpected) == got - want
    ensures missing == [] && unexpected == [] <==> want == got
  {
    assert |missing| == |multiset(missing)| && |unexpected| == |multiset(unexpected)|;
    if want - got == multiset{} && got - want == multiset{} {
      assert forall x :: (want - got)[x] == 0 && (got - want)[x] == 0;
      assert forall x :: want[x] == got[x];
    }
  }

  method CompareAt(expected: map<nat, seq<int>>, actual: map<nat, seq<int>>, t: nat)
    returns (entry: (seq<int>, seq<int>))
    requires Ordered(expected) && Ordered(actual)
    ensures Tells(expected, actual, t, entry) && (entry.0 != [] || entry.1 != [] <==> Differ(expected, actual, t))
  {
    var missing, unexpected := Difference(AtTime(expected, t), AtTime(actual, t));
    NoDifference(multiset(AtTime(expected, t)), multiset(AtTime(actual, t)), missing, unexpected);
    entry := (missing, unexpected);
  }

  /** compare: no report if the two are equal, and otherwise one entry for exactly each
      time at which they differ, telling what is missing and what is unexpected. */
  method Compare(expected: map<nat, seq<int>>, actual: map<nat, seq<int>>)
    returns (report: Option<map<nat, (seq<int>, seq<int>)>>)
    requires Ordered(expected) && Ordered(actual)
    ensures report.None? <==> expected == actual
    ensures report.Some? ==> forall t: nat :: t in report.value <==> Differ(expected, actual, t)
    ensures report.Some? ==> forall t :: t in report.value ==> Tells(expected, actual, t, report.value[t])
  {
    if expected == actual {
      return None;
    }
    var entries: map<nat, (seq<int>, seq<int>)> := map[];
    var times := expected.Keys + actual.Keys;
    while times != {}
      invariant times <= expected.Keys + actual.Keys
      invariant forall t: nat :: t in entries <==> t !in times && Differ(expected, actual, t)
      invariant forall t :: t in entries ==> Tells(expected, actual, t, entries[t])
      decreases |times|
    {
      var t :| t in times;
      times := times - {t};
      var entry := CompareAt(expected, actual, t);
      if entry.0 != [] || entry.1 != [] {
        entries := entries[t := entry];
      }
    }
    return Some(entries);
  }

  /** Groupings that are not equal differ at some time, so a failed comparison always
      has something to report. */
  lemma UnequalGroupsDiffer(a: seq<Timed>, b: seq<Timed>, ga: map<nat, seq<int>>, gb: map<nat, seq<int>>)
    requires Groups(a, ga) && Groups(b, gb) && ga != gb
    ensures Ordered(ga) && Ordered(gb) && exists t: nat :: Differ(ga, gb, t)
  {
    GroupsAreOrdered(a, ga);
    GroupsAreOrdered(b, gb);
    if forall t: nat :: !Differ(ga, gb, t) { SameEverywhere(ga, gb); }
  }

  lemma SameEverywhere(ga: map<nat, seq<int>>, gb: map<nat, seq<int>>)
    requires Ordered(ga) && Ordered(gb) && forall t: nat :: !Differ(ga, gb, t)
    requires (forall t :: t in ga ==> ga[t] != []) && forall t :: t in gb ==> gb[t] != []
    ensures ga == gb
  {
    forall t: nat ensures (t in ga <==> t in gb) && (t in ga ==> ga[t] == gb[t]) {
      assert !Differ(ga, gb, t);
      SortedIsUnique(AtTime(ga, t), AtTime(gb, t));
    }
  }

  lemma GroupsAreOrdered(records: seq<Timed>, grouped: map<nat, seq<int>>)
    requires Groups(records, grouped)
    ensures Ordered(grouped) && forall t :: t in grouped ==> grouped[t] != []
  {
    forall t | t in grouped ensures IsSorted(grouped[t]) && grouped[t] != [] {
      SortedSorts(ValuesAt(records, t));
      assert |multiset(grouped[t])| == |grouped[t]|;
      assert |multiset(ValuesAt(records, t))| == |ValuesAt(records, t)|;
    }
  }

  // ---------------------------------------------------------------------------
  // Checking one worker
  // ---------------------------------------------------------------------------

  /** check_worker's IterativeExchange arm, on the records a worker put out: it passes
      exactly if they are, as a multiset, what the reference gives the worker. */
  method CheckWorker(l: Loop, inputs: seq<Record>, worker: nat, output: seq<Timed>) returns (ok: bool)
    requires LoopOk(l) && InputsOk(l, inputs)
    ensures ok <==> multiset(output) == multiset(Reference(l, inputs, worker))
  {
    var leftLoop: seq<Timed> := [];
    for i := 0 to |inputs|
      invariant InputsOk(l, inputs[..i]) && leftLoop == Reference(l, inputs[..i], worker)
    {
      assert InRange(l, inputs[i].value) && inputs[..i + 1][..i] == inputs[..i];
      var on, result := LeaveTheLoop(inputs[i].value as i64, l.threshold as i64, l.workers);
      if on == worker {
        leftLoop := leftLoop + [(inputs[i].time, result as int)];
      }
    }
    assert inputs[..|inputs|] == inputs;
    var expected := Group(leftLoop);
    var actual := Group(output);
    GroupsCompare(leftLoop, output, expected, actual);
    GroupsAreOrdered(leftLoop, expected);
    GroupsAreOrdered(output, actual);
    var report := Compare(expected, actual);
    ok := report.None?;
  }

  /** So the check passes on every worker after every complete schedule. */
  lemma EveryScheduleChecksOut(l: Loop, inputs: seq<Record>, states: seq<Cluster>, schedule: seq<nat>, k: nat,
                               worker: nat)
    requires LoopOk(l) && InputsOk(l, inputs) && IsRun(l, inputs, states, schedule) && k < |states|
    requires forall i :: !Enabled(inputs, states[k], i)
    ensures forall ga, gb ::
              Groups(Reference(l, inputs, worker), ga) && Groups(On(states[k].out, worker), gb) ==> ga == gb
  {
    SchedulesAgree(l, inputs, states, schedule, k, worker);
    forall ga, gb | Groups(Reference(l, inputs, worker), ga) && Groups(On(states[k].out, worker), gb) ensures ga == gb {
      GroupsCompare(Reference(l, inputs, worker), On(states[k].out, worker), ga, gb);
    }
  }
}
