/**
 How a dataflow ended on a node that was restarted: which of its processes speaks
 for it.
 */
module RestartChain {
  import opened Options
  import opened Coordinator

  datatype Process = Process(
    outcomes: map<string, Outcome>,
    spawned: set<string>,
    killed: bool,
    shutDown: bool,
    closed: bool,
    problem: Option<Problem>)

  /** A node's processes, the first one first. */
  type Chain = c: seq<Process> | |c| > 0 witness [Process(map[], {}, false, false, false, None)]

  predicate RanHere(p: Process, dataflow: string) {
    dataflow in p.spawned || dataflow in p.outcomes
  }

  predicate Ran(chain: seq<Process>, dataflow: string) {
    chain != [] && (RanHere(chain[|chain| - 1], dataflow) || Ran(chain[..|chain| - 1], dataflow))
  }

  /** outcome, which panics over a process that broke the protocol. */
  datatype Report = Report(outcome: Option<Outcome>) | Panic

  function OutcomeOn(chain: Chain, dataflow: string): Report
    decreases |chain|
  {
    var last, earlier := chain[|chain| - 1], chain[..|chain| - 1];
    if last.problem.Some? then Panic
    else if dataflow in last.outcomes then Report(Some(last.outcomes[dataflow]))
    else if dataflow !in last.spawned && Ran(earlier, dataflow) then OutcomeOn(earlier, dataflow)
    else Report(if last.closed then Some(Dead) else None)
  }

  predicate StoppedRunning(chain: Chain, dataflow: string)
    decreases |chain|
  {
    var last, earlier := chain[|chain| - 1], chain[..|chain| - 1];
    if !RanHere(last, dataflow) && Ran(earlier, dataflow) then StoppedRunning(earlier, dataflow)
    else last.killed || last.shutDown
  }

  /** The newest process that was asked to run the dataflow or reported it; the newest
      of all if none was. */
  function Owner(chain: Chain, dataflow: string): (i: nat)
    ensures i < |chain|
    ensures (exists j :: 0 <= j < |chain| && RanHere(chain[j], dataflow)) ==> RanHere(chain[i], dataflow)
    ensures forall j :: i < j < |chain| && RanHere(chain[j], dataflow) ==> !RanHere(chain[i], dataflow)
    ensures (forall j :: 0 <= j < |chain| ==> !RanHere(chain[j], dataflow)) ==> i == |chain| - 1
    decreases |chain|
  {
    var last, earlier := |chain| - 1, chain[..|chain| - 1];
    if RanHere(chain[last], dataflow) || !Ran(earlier, dataflow) then
      RanMeansSome(earlier, dataflow);
      assert forall j :: 0 <= j < last ==> earlier[j] == chain[j];
      last
    else
      RanMeansSome(earlier, dataflow);
      assert forall j :: 0 <= j < last ==> earlier[j] == chain[j];
      Owner(earlier, dataflow)
  }

  lemma {:induction false} RanMeansSome(chain: seq<Process>, dataflow: string)
    ensures Ran(chain, dataflow) <==> exists j :: 0 <= j < |chain| && RanHere(chain[j], dataflow)
    decreases |chain|
  {
    if chain != [] {
      var earlier := chain[..|chain| - 1];
      RanMeansSome(earlier, dataflow);
      assert forall j :: 0 <= j < |earlier| ==> earlier[j] == chain[j];
    }
  }

  /** Unless a process from the owner on broke the protocol, the outcome and whether the
      test stopped it are both those of the owner: what it reported, or dead if its
      connection ended without a report. */
  lemma {:induction false} OwnerSpeaks(chain: Chain, dataflow: string)
    ensures var own := chain[Owner(chain, dataflow)];
            && StoppedRunning(chain, dataflow) == (own.killed || own.shutDown)
            && OutcomeOn(chain, dataflow) ==
               if exists j :: Owner(chain, dataflow) <= j < |chain| && chain[j].problem.Some? then Panic
               else if dataflow in own.outcomes then Report(Some(own.outcomes[dataflow]))
               else Report(if own.closed then Some(Dead) else None)
    decreases |chain|
  {
    var last, earlier := chain[|chain| - 1], chain[..|chain| - 1];
    if !RanHere(last, dataflow) && Ran(earlier, dataflow) {
      OwnerSpeaks(earlier, dataflow);
      assert Owner(chain, dataflow) == Owner(earlier, dataflow);
      assert forall j :: 0 <= j < |earlier| ==> earlier[j] == chain[j];
    } else {
      assert Owner(chain, dataflow) == |chain| - 1;
    }
  }
}
