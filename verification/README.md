# Verified model of instancy's protocols

This project models the hard parts of instancy, a distributed dataflow runtime, in
Dafny, and proves what they promise:

- **Executor tasks** (`TaskProtocol`, `ExecutorTasks`, `ExecutorSafety`, `ExecutorRuns`,
  `ExecutorPolls`): tasks driven through IDLE, QUEUED, POLLING and DONE by compare-and-swap from any
  number of wakers, pool threads, registering threads and shutdown.
- **Cancellation tokens** (`CancellationReasons`, `CancellationTokens`,
  `CancellationStability`, `CancellationRuns`, `CancellationWakeups`,
  `CancellationWaiters`, `CancellationEscalation`): token trees of any shape, with ancestor flags cached, a reason
  written once under a lock, wake handles, async waiters and escalation; and how a
  reason's text is classified after peers forwarded it.
- **Pruned lists** (`PrunedList`, `ListPruning`): the weak lists both of the above keep.
- **Streaming union-find** (`Connectivity`, `UnionFindReference`, `UnionFindForest`,
  `UnionFind`): path halving and union by rank in place, with 8-bit ranks, against a plain
  table of leaders.
- **The relay** (`Relay`, `RelayRuns`, `RelayDelays`, `RelayThrottle`, `RelayProgress`,
  `RelayTasks`, `RelayTagging`): one direction of a relayed connection under stalls, delays and a
  throttle, and the look at a dialer's first bytes.
- **Peer links** (`Utf8Text`, `PeerPrefix`, `Inbox`, `InboxRuns`, `InboxWaiters`): the prefix
  codec, and the inbox that drops streams of replaced processes.
- **The iterative dataflow and its reference** (`IterativeLoop`, `Workloads`).
- **The coordinator** (`Coordinator`, `CoordinatorRuns`, `CoordinatorReports`,
  `RestartChain`): requests and responses, reported outcomes, and which process of a restarted node speaks for a dataflow.
- **The stable hasher** (`Words64`, `WordBytes`, `StableHash`, `GoldenHashes`).

`Runs` says what a run of a step relation is and what its steps keep; `Options`, `Bytes`
and `Numbers` are small shared types and functions. `dafny verify dfyconfig.toml` checks everything.

## How the model reads

A concurrent protocol is a step system: shared memory plus one program counter per
thread, one atomic access or one critical section per step, any number of threads. A run
is a sequence of states joined by enabled steps from the initial state, so a lemma over
every run covers every interleaving. Sequential code that updates things in place is a
class or a method with loops, proved against functions on values; the laws are lemmas
about those functions.

Inputs from outside are part of the step or a parameter: what a socket has to read, how
much it takes, when time passes, which test action comes next, which weak references
are dead, and which byte strings are UTF-8. Time is a real number.

Where code and documentation differ, the model follows the code:

- The union-find operator emits the two roots it merges; its header speaks of forwarding
  the input edge (`instancy/examples/unionfind.rs`, lines 6 to 8 and 80).
  `UnionFindReference.EdgeIsNotForwarded` is an input where they differ, and
  `UnionFindReference.ForwardsTheEdgeExactly` says exactly when the edge itself comes out.
- A forwarded cancellation reason keeps its classification only under a condition on the
  peer's ID. `CancellationReasons.SpacedIdMisclassifies` is an ID that breaks it and
  `CancellationReasons.TransparentExactly` says exactly which IDs do not.
- `prefix_node_set` is said to fail on bytes that can't start a prefix. A length byte above
  0x10 and a field whose bytes are already not UTF-8 are refused late, after more bytes:
  `PeerPrefix.LongLengthIsRefusedLate` and `PeerPrefix.BadTextIsRefusedLate` are inputs, and
  `PeerPrefix.StartsExactly` says exactly which bytes can still start a prefix.
- `IterativeExchange` inputs are said to be below the threshold
  (`instancy-integration/src/workloads.rs`, lines 42 to 47). `IterativeLoop.FedIsBelowExactly`
  says that they are exactly for thresholds above 1. The model takes all of them.

## Model

| member | source | states |
|---|---|---|
| `TaskProtocol.AccessKeepsInv` | instancy/src/executor_task.rs:162-348 | any atomic access by any thread keeps one task's tickets, state and release stages consistent with all other threads' roles |
| `ExecutorSafety.StepKeepsInv` | instancy/src/executor_task.rs:162-348 | every step of every operation keeps the invariant of every task, for any number of tasks and threads |
| `ExecutorRuns.RunKeepsInv` | instancy/src/executor_task.rs:162-348 | every state of every run satisfies that invariant |
| `ExecutorRuns.OneTicket` | instancy/src/executor_task.rs:162-252 | a QUEUED or POLLING task has exactly one ticket among queue entries, owed enqueues, unclaimed dequeues and running polls; an IDLE or DONE one has none |
| `ExecutorRuns.PollsAreExclusive` | instancy/src/executor_task.rs:192-219 | no task is polled by two threads or queued while polled, and a poll always finds its future in place |
| `ExecutorRuns.StateMoves` | instancy/src/executor_task.rs:226-251 | a step takes a QUEUED task only to DONE or into a poll that begins, and a DONE task nowhere |
| `ExecutorRuns.WakeLeavesQueued` | instancy/src/executor_task.rs:314-348 | the step by which a wake decides leaves the task QUEUED or DONE, whatever it raced with |
| `ExecutorRuns.StaysQueued` | instancy/src/executor_task.rs:314-348 | it stays so until a poll of it begins |
| `ExecutorRuns.NoLostWake` | instancy/src/executor_task.rs:387-399 | after a wake took effect a new poll begins or the task is still QUEUED, and in the ready queue exactly once if no thread is on its way with it |
| `ExecutorRuns.CompletesAtMostOnce` | instancy/src/executor_task.rs:258-282 | a completion is published at most once, after DONE and after the future is dropped |
| `ExecutorRuns.DoneIsPermanent` | instancy/src/executor_task.rs:289-305 | DONE is permanent, and no queue entry of a DONE task can be claimed |
| `ExecutorPolls.FinishedFutureCompletes` | instancy/src/executor_task.rs:221-282 | when the thread that polled a ready or panicked future is back at its loop, the task is DONE, its future dropped and that very outcome published, once |
| `ExecutorPolls.PendingFutureSettles` | instancy/src/executor_task.rs:226-250 | after a pending future every step of its thread settles the task: POLLING becomes IDLE, or the task was QUEUED, stays so and is enqueued |
| `ExecutorPolls.PendingFutureIsNotFinished` | instancy/src/executor_task.rs:226-250 | none of those steps takes the task to DONE |
| `ExecutorPolls.AbortedTaskCompletes` | instancy/src/executor_task.rs:289-305 | a shutdown that takes a task to DONE has published it as aborted, once, before it goes on |
| `ExecutorPolls.CompletionsWereDecided` | instancy/src/executor_task.rs:258-305 | every published completion was answered by that task's future or comes from aborting it; none says that the future was missing |
| `ExecutorPolls.FirstInFirstOut` | instancy/src/executor_task.rs:634-674 | until a shutdown clears the queue, what was enqueued is what was dequeued, in the same order, and then what is queued |
| `ExecutorRuns.AbortAllTakesEveryTask` | instancy/src/executor_task.rs:600-608 | abort_all sets out to abort every task on the live list that is still referenced |
| `ExecutorPolls.ListedAfterDrain` | instancy/src/executor_task.rs:600-608 | a task on the live list after abort_all drained it was registered since |
| `ExecutorRuns.AbortAllFinishesItsTasks` | instancy/src/executor_task.rs:600-627 | when abort_all returns, whatever else ran meanwhile, every task it set out to abort is DONE, and completed or being completed by a thread that got there first |
| `ExecutorRuns.AbortAllLeavesNothing` | instancy/src/executor_task.rs:600-627 | if nobody else then registers or aborts, every other referenced task off the live list is DONE and completed too |
| `ExecutorRuns.ShutdownCompletesEveryTask` | instancy/src/worker_pool.rs:215-242 | after the pool is joined and abort_all ran, every referenced task is DONE, its future dropped, its completion published once |
| `CancellationReasons.Find` | instancy/src/cancellation.rs:133-155 | the first occurrence of a separator and no earlier one |
| `CancellationReasons.DescribesFailureLoop` | instancy/src/cancellation.rs:133-155 | the loop over a shrinking text ends and decides the recursive definition |
| `CancellationReasons.TextsAre` | instancy/src/cancellation.rs:159-176 | the texts of reasons, as peers exchange them |
| `CancellationReasons.TextDescribesReason` | instancy/src/cancellation.rs:118-175 | a reason's text describes a failure exactly if the reason is one |
| `CancellationReasons.TransparentPreserves` | instancy/src/cancellation.rs:133-155 | wrapping by a transparent ID does not change what a text describes |
| `CancellationReasons.ForwardingPreserves` | instancy/src/cancellation.rs:118-175 | forwarding through any number of peers with transparent IDs keeps is_failure |
| `CancellationReasons.ForwardingPreservesPlainIds` | instancy/src/cancellation.rs:118-175 | in particular through peers whose IDs hold no space |
| `CancellationReasons.TransparentExactly` | instancy/src/cancellation.rs:133-175 | an ID is transparent if and only if no reason changes its classification at the next peer |
| `CancellationReasons.OpaqueLoses` | instancy/src/cancellation.rs:133-175 | any other ID misclassifies a plain stop or a plain failure, and which |
| `CancellationReasons.SpacedIdMisclassifies` | instancy/src/cancellation.rs:133-175 | a concrete ID with spaces turns a requested stop into a failure |
| `CancellationStability.CancelledIsCaused` | instancy/src/cancellation.rs:468-491 | despite cached flags, a token reads as cancelled exactly if it or an ancestor was cancelled itself |
| `CancellationStability.DecidedOnce` | instancy/src/cancellation.rs:438-460 | a token has at most one decided reason |
| `CancellationStability.FoundIsDecided` | instancy/src/cancellation.rs:438-460 | the reason a walk up the chain finds is the decided one |
| `CancellationRuns.RunKeepsInv` | instancy/src/cancellation.rs:346-386 | every state of every run over every tree satisfies the invariant |
| `CancellationRuns.ReasonsAgree` | instancy/src/cancellation.rs:438-460 | any two calls of reason() on one token that return a reason return the same one |
| `CancellationRuns.CancelledHasReason` | instancy/src/cancellation.rs:346-386 | a call of reason() that begins on a cancelled token returns a reason |
| `CancellationRuns.ObservedReasonIsStable` | instancy/src/cancellation.rs:346-386 | once a reader got a reason, every later call on that token returns it |
| `CancellationRuns.CancelTakesEffect` | instancy/src/cancellation.rs:346-386 | once a cancel returned, or is_cancelled said yes, the token and everything below it is cancelled for good |
| `CancellationRuns.ReasonsWereGiven` | instancy/src/cancellation.rs:346-386 | a token's own reason is one that somebody cancelled that very token with |
| `CancellationRuns.EscalationOverrulesAStop` | instancy/src/cancellation.rs:396-414 | an escalation is a failure recorded over a reason that is not one, and reason() keeps the first |
| `CancellationEscalation.EscalateTakesEffect` | instancy/src/cancellation.rs:396-414 | when an escalate with a failure is over, an escalation is recorded on the token if and only if its reason is not a failure |
| `CancellationEscalation.EscalationStays` | instancy/src/cancellation.rs:402 | the first escalation recorded on a token never changes |
| `CancellationEscalation.EscalationWasAsked` | instancy/src/cancellation.rs:396-402 | a recorded escalation is the failure somebody escalated that very token with |
| `CancellationEscalation.EscalateTells` | instancy/src/cancellation.rs:402-413 | recording an escalation begins telling those registered on the token, and the escalate is over when the telling is |
| `CancellationEscalation.EscalationWakesWaiters` | instancy/src/cancellation.rs:402-413 | by then every waiter enabled on the token when it was recorded, and not withdrawn since, is woken |
| `CancellationEscalation.EscalationNotifiesHandles` | instancy/src/cancellation.rs:402-413 | and every handle registered on it then, and not gone since, was notified once more |
| `CancellationEscalation.TellingNotifiesHandles` | instancy/src/cancellation.rs:370-385 | whoever tells, for a cancel or an escalate, notifies each live handle on the token's list meanwhile |
| `CancellationEscalation.TellingWakesWaiters` | instancy/src/cancellation.rs:370-385 | and wakes each waiter enabled on the token when it began, unless it withdrew |
| `CancellationEscalation.ToldTwiceAtMost` | instancy/src/cancellation.rs:369-413 | in a run those registered are told once by the cancel that turns the flag on and once by the recorded escalate, and never else |
| `CancellationWakeups.RunKeepsHandleInv` | instancy/src/cancellation.rs:540-571 | every run keeps each handle listed on its own chain, complete once registered, and notified or about to be where a node was cancelled |
| `CancellationWakeups.HandlesAreNotified` | instancy/src/cancellation.rs:540-571 | once registering and notifying threads are done, a live handle was notified exactly if its token is cancelled |
| `CancellationWakeups.NotifiedMeansCancelled` | instancy/src/cancellation.rs:370-385 | at every moment a notified handle's token is cancelled |
| `CancellationWaiters.RunKeepsWaiterInv` | instancy/src/cancellation.rs:631-709 | every run keeps each waiter enrolled as far up as it has come, with a notification due wherever a node was cancelled |
| `CancellationWaiters.WaitersAreWoken` | instancy/src/cancellation.rs:631-709 | once notifying threads are done, a waiter asleep on a cancelled token has been woken |
| `CancellationWaiters.CancelledIsSeen` | instancy/src/cancellation.rs:468-491 | is_cancelled, whatever it is called for, answers yes if the token or an ancestor was cancelled when it began |
| `CancellationWaiters.AnswerIsCached` | instancy/src/cancellation.rs:480-491 | after a yes the token's own flag is on for good |
| `CancellationWaiters.WokenWaitersReturn` | instancy/src/cancellation.rs:631-681 | a waiter that comes to a cancelled token, or is woken on one, returns rather than sleeping |
| `CancellationWaiters.WaitersReturnOnlyWhenCancelled` | instancy/src/cancellation.rs:631-681 | cancelled_async returns only on a token that is cancelled, then and ever after |
| `PrunedList.ShortAndCheap` | instancy/src/cancellation.rs:211-220 | after any pushes the length is at most 32 or twice what the last prune kept, and the scans are paid for by pushes |
| `PrunedList.PrunesExactly` | instancy/src/cancellation.rs:211-220 | a push scans the list exactly when it has reached 32 entries and twice what the last prune kept |
| `PrunedList.ScansTwoPerPush` | instancy/src/executor_task.rs:444-455 | all prunes together scan at most two entries a push |
| `PrunedList.LiveEntriesStay` | instancy/src/executor_task.rs:444-455 | an entry that is live at every later push is still listed |
| `PrunedList.OrderStays` | instancy/src/cancellation.rs:211-220 | what is left is in the order it was pushed |
| `PrunedList.WeakList.Add` | instancy/src/executor_task.rs:447-455 | a push prunes when the list is full and records twice the retained length |
| `PrunedList.WeakList.Retain` | instancy/src/cancellation.rs:214-220 | the retain loop keeps exactly the live entries |
| `ListPruning.TasksArePushed` | instancy/src/executor_task.rs:447-455 | the push and prune is what the registry protocol lets a registering thread do to the live list |
| `ListPruning.HandlesArePushed` | instancy/src/cancellation.rs:214-220 | the push and prune is what the token protocol lets a registering thread do to a node's handles |
| `UnionFindForest.Root` | instancy/examples/unionfind.rs:69-76 | following links ends at a root of at least the rank it started from |
| `UnionFindForest.HalvedRoot` | instancy/examples/unionfind.rs:69-76 | path halving changes no element's representative |
| `UnionFindForest.LinkedRoot` | instancy/examples/unionfind.rs:79-89 | linking two roots joins exactly their two trees |
| `UnionFindForest.LinkedBalanced` | instancy/examples/unionfind.rs:79-89 | union by rank keeps ranks strictly rising along links and 2^r members under a root of rank r |
| `UnionFindForest.RankIsLogarithmic` | instancy/examples/unionfind.rs:81-88 | 2^rank is at most the number of nodes |
| `UnionFindForest.RankFits` | instancy/examples/unionfind.rs:81-88 | no rank exceeds 64, so a u8 never overflows |
| `UnionFindReference.SameComponents` | instancy/examples/unionfind.rs:52-97 | for any edges, the pairs emitted, the edges and equal leaders connect exactly the same nodes |
| `UnionFindReference.EmitsTheAnswer` | instancy/examples/unionfind.rs:79-80 | an edge emits a pair if and only if the edges before it did not connect its ends, naming a node of each component |
| `UnionFindReference.ForwardsTheEdgeExactly` | instancy/examples/unionfind.rs:6-8 | the edge itself comes out if and only if its ends differ and each leads itself |
| `UnionFindReference.EdgeIsNotForwarded` | instancy/examples/unionfind.rs:80 | of the edges (0, 1) and (1, 2) the second comes out as (0, 2) |
| `UnionFindReference.PassedIsEverything` | instancy/examples/unionfind.rs:92-94 | what the batches pass on is, together and in order, the pairs emitted for all their edges |
| `UnionFindReference.PassesEachPartOnce` | instancy/examples/unionfind.rs:56-97 | exactly the batches that have pairs pass them on, one part each, in order, under their times |
| `UnionFind.LinkedIsJoined` | instancy/examples/unionfind.rs:79-89 | hanging one root under the other by rank is what the table of leaders does, and emits the same pair |
| `UnionFind.RootsAreComponents` | instancy/examples/unionfind.rs:52-97 | the nodes with one root are those the edges received connect |
| `UnionFind.OneRootPerComponent` | instancy/examples/unionfind.rs:52-97 | every component has one root, so the merges number the nodes less the components |
| `UnionFind.Operator.Grow` | instancy/examples/unionfind.rs:60-66 | makes room for a node; every representative stays |
| `UnionFind.Operator.Find` | instancy/examples/unionfind.rs:69-76 | the find loop ends at the node's representative and leaves all representatives as they were |
| `UnionFind.Operator.Union` | instancy/examples/unionfind.rs:79-89 | the three rank cases keep the forest, its ranks and its root count in step with the table, one edge on |
| `UnionFind.Operator.Add` | instancy/examples/unionfind.rs:59-90 | an edge emits its ends' two representatives if and only if they were not connected, so the edge itself if and only if each end was its own |
| `UnionFind.Operator.Batch` | instancy/examples/unionfind.rs:56-94 | a batch emits exactly the table's pairs for its edges, in order |
| `UnionFind.Operator.Drain` | instancy/examples/unionfind.rs:55-97 | any sequence of batches: exactly the table's pairs, by batch, each part that is not empty under its batch's time |
| `Relay.StalledSince` | instancy-integration/src/relay.rs:330-361 | a direction is stalled exactly while a stall of it is unhealed |
| `Relay.DelayedSince` | instancy-integration/src/relay.rs:330-361 | the delay in force is the last set since the last heal |
| `Relay.ThrottledSince` | instancy-integration/src/relay.rs:330-361 | the throttle in force is the last set since the last heal |
| `Relay.EndedSince` | instancy-integration/src/relay.rs:330-361 | a reset ends the connection even after a close, a close unless reset |
| `Relay.Hold` | instancy-integration/src/relay.rs:698-744 | bytes go only unstalled and after the delay: all that is wanted, or under a throttle the smaller of that and a tenth of the rate, one at least; it waits only for a stall, the delay or its own clock |
| `RelayRuns.StepKeepsInv` | instancy-integration/src/relay.rs:606-689 | every poll keeps bytes conserved in order, the end of stream last and the buffers bounded |
| `RelayRuns.CopiesInOrder` | instancy-integration/src/relay.rs:606-689 | bytes read are bytes written, then the rest of the chunk, the queue and the reader's chunk; the counter is right |
| `RelayRuns.FinFollowsEveryByte` | instancy-integration/src/relay.rs:648-662 | once end of stream is sent all that was read is written, and nothing changes after |
| `RelayRuns.StalledIsStill` | instancy-integration/src/relay.rs:606-689 | no step reads, writes, shuts down or fails in a stalled direction; it can end only by an action or with the other direction, unless that is stalled too |
| `RelayRuns.StalledEndsExactly` | instancy-integration/src/relay.rs:482-498 | a stalled direction can end if and only if the connection was told to end or the other direction is not stalled |
| `RelayRuns.HoldsLittle` | instancy-integration/src/relay.rs:49-53 | at most 288 KiB are read and not yet written |
| `RelayRuns.HoldsThatMuch` | instancy-integration/src/relay.rs:49-53 | and that bound is reached: 18 full chunks, 16 of them queued |
| `RelayDelays.RunKeepsStamp` | instancy-integration/src/relay.rs:629-632 | over every run each byte on its way is kept with the time of the read that brought it, by its position in the stream |
| `RelayDelays.BytesKeepTheDelay` | instancy-integration/src/relay.rs:698-731 | no byte is let go before the delay in force has passed since that byte was read, or in a stall |
| `RelayDelays.DelayIsExact` | instancy-integration/src/relay.rs:698-735 | without a throttle a look lets it go, with the rest of its chunk, if and only if the delay has passed and there is no stall |
| `RelayDelays.EndKeepsTheDelay` | instancy-integration/src/relay.rs:648-650 | the same of the end of stream, whatever the throttle |
| `RelayProgress.RunKeepsClock` | instancy-integration/src/relay.rs:698-744 | over every run no chunk was read in the future and the throttle's clock is at most one burst ahead |
| `RelayProgress.SleepIsBounded` | instancy-integration/src/relay.rs:725-730 | hold sleeps no longer than the delay in force or one burst's time |
| `RelayProgress.SleepIsEnough` | instancy-integration/src/relay.rs:725-742 | and when it has slept that long it lets go |
| `RelayProgress.ForwardingShrinks` | instancy-integration/src/relay.rs:640-689 | every send, receive, release, write and shutdown leaves strictly less to do |
| `RelayProgress.NeverStuck` | instancy-integration/src/relay.rs:640-744 | with anything left to forward and no stall, after a bounded wait a step is possible that leaves strictly less |
| `RelayThrottle.ThrottleBound` | instancy-integration/src/relay.rs:691-744 | while a rate stays in force, releases between two moments total at most rate times time plus max(rate / 10, 1) |
| `RelayThrottle.ThrottleIsExact` | instancy-integration/src/relay.rs:713-742 | under one rate, after n bytes went a look lets more go if and only if n / rate seconds have passed, the delay is over and there is no stall |
| `RelayThrottle.ThrottleRestarts` | instancy-integration/src/relay.rs:715-723 | a look under a rate not in force at the last look does not wait for the throttle |
| `RelayThrottle.WritesWereReleased` | instancy-integration/src/relay.rs:663-687 | bytes written plus bytes let go and unwritten are exactly the bytes released |
| `RelayThrottle.ReleasesKeepTheDelay` | instancy-integration/src/relay.rs:698-744 | each release is at least one byte, at most the chunk's rest, and not before read time plus delay |
| `RelayTasks.OneWay.Act` | instancy-integration/src/relay.rs:331-355 | an action updates the control as specified and nothing else |
| `RelayTasks.OneWay.PollReader` | instancy-integration/src/relay.rs:606-638 | one poll of the reader is a step of the model, or none was possible |
| `RelayTasks.OneWay.LookOnce` | instancy-integration/src/relay.rs:698-744 | one turn of hold's loop is a step of the model |
| `RelayTasks.OneWay.WriteSome` | instancy-integration/src/relay.rs:672-684 | a partial write advances the chunk and counts its bytes |
| `RelayTasks.OneWay.PollWriter` | instancy-integration/src/relay.rs:640-689 | one poll of the writer is a step of the model, or it has nothing it may do |
| `RelayTasks.OneWay.HoldThrough` | instancy-integration/src/relay.rs:698-744 | looking, sleeping until due and looking again releases something within the longest sleep |
| `RelayTasks.OneWay.Finish` | instancy-integration/src/relay.rs:640-689 | with the reader done and no stall, whatever delay and throttle are in force, polling ends with every byte written and then end of stream, within one longest sleep a step |
| `RelayTagging.Tagging.Scan` | instancy-integration/src/relay.rs:581-597 | extends what was seen up to the cap, records a tag, and says whether to keep looking |
| `RelayTagging.Tagging.ScanAll` | instancy-integration/src/relay.rs:624-628 | shown every chunk until it says to stop |
| `RelayTagging.ChunkingDoesNotMatter` | instancy-integration/src/relay.rs:578-598 | after any chunks, an empty last one included, the tag is the one their bytes carry, and it looks on exactly while they are part of a prefix, fewer than 65536, and the stream has not ended |
| `RelayTagging.TagsByTheCompletingChunk` | instancy-integration/src/relay.rs:624-628 | a stream is tagged with its node set by the very chunk completing the prefix; the 64 KiB cap never cuts one |
| `PeerPrefix.EncodePrefix` | instancy-integration/src/peer_link.rs:260-279 | fills the buffer with the encoding, or fails exactly on a field over 4096 bytes |
| `PeerPrefix.EncodedLayout` | instancy-integration/src/peer_link.rs:260-279 | the wire format byte by byte: two bytes of length and the ID, eight of incarnation, two of length and the key, highest byte first |
| `PeerPrefix.BigEndianRoundTrip` | instancy-integration/src/peer_link.rs:272-277 | big-endian numbers read back as written |
| `PeerPrefix.TakeField` | instancy-integration/src/peer_link.rs:323-339 | a taken field is UTF-8, fits, and with the rest makes up the bytes |
| `PeerPrefix.PrefixRoundTrip` | instancy-integration/src/peer_link.rs:281-303 | read_prefix recovers all three fields and leaves the rest |
| `PeerPrefix.ReadWasWritten` | instancy-integration/src/peer_link.rs:281-303 | and reads nothing but what a dialer could have written |
| `PeerPrefix.Connection.ReadNumber` | instancy-integration/src/peer_link.rs:283-293 | reading a number byte by byte gives its big-endian value and leaves the rest, or fails exactly on an early end |
| `PeerPrefix.Connection.ReadField` | instancy-integration/src/peer_link.rs:292-303 | the stream's own field reader finds a field exactly when the parser of the bytes does, the same one, and leaves the same rest |
| `PeerPrefix.Connection.Read` | instancy-integration/src/peer_link.rs:281-290 | reading the whole prefix succeeds exactly when the look at all the bytes finds a key, the same key |
| `PeerPrefix.WholePrefixGivesKey` | instancy-integration/src/peer_link.rs:309-319 | every extension of a prefix gives its node-set key |
| `PeerPrefix.PartOfPrefixIsPartial` | instancy-integration/src/peer_link.rs:309-319 | every strict prefix of one needs more |
| `PeerPrefix.LookIsStable` | instancy-integration/src/peer_link.rs:309-339 | more bytes change neither a key found nor a refusal |
| `PeerPrefix.StartsExactly` | instancy-integration/src/peer_link.rs:305-339 | some continuation holds a prefix if and only if no field is wrong and the unfinished one can still be finished; so a refusal is always right |
| `PeerPrefix.RealStartsExactly` | instancy-integration/src/peer_link.rs:305-339 | the same outright, with UTF-8 as RFC 3629 has it |
| `PeerPrefix.RealFieldIsOpen` | instancy-integration/src/peer_link.rs:323-339 | an unfinished field can be finished exactly if its bytes hold no UTF-8 fault and the character they end in fits in its length |
| `PeerPrefix.LongLengthIsRefusedLate` | instancy-integration/src/peer_link.rs:323-331 | the single byte 0x11 is answered with needing more, yet no continuation is a prefix |
| `PeerPrefix.BadTextIsRefusedLate` | instancy-integration/src/peer_link.rs:334-336 | so is a started field holding the byte 0xFF |
| `Utf8Text.ExtendsExactly` | instancy-integration/src/peer_link.rs:334-336 | bytes can become UTF-8 with n more exactly if they hold no fault and their last character is finished by then |
| `Inbox.LinkState.Queue` | instancy-integration/src/peer_link.rs:98-112 | appends under the key and raises the peer's highest incarnation |
| `Inbox.LinkState.Pop` | instancy-integration/src/peer_link.rs:116-134 | the loop drops stale streams and returns the first fresh one |
| `InboxRuns.PopTakesStaleThenFresh` | instancy-integration/src/peer_link.rs:116-134 | a pop discards only stale streams ahead of the one it returns, and returns none only if all were stale |
| `InboxRuns.HighestIsSeen` | instancy-integration/src/peer_link.rs:98-112 | the recorded incarnation is the highest that arrived from the peer under any node set |
| `InboxRuns.EachStreamOnce` | instancy-integration/src/peer_link.rs:98-134 | each arrival is taken by a pop or still queued, exactly once, in order of arrival |
| `InboxRuns.PopsTheNewest` | instancy-integration/src/peer_link.rs:116-134 | a popped stream arrived under that key and is of the highest incarnation seen so far |
| `InboxRuns.IncarnationsNeverGoDown` | instancy-integration/src/peer_link.rs:116-134 | incarnations popped from one peer never decrease, across node sets |
| `InboxWaiters.SleepersMissNothing` | instancy-integration/src/peer_link.rs:226-237 | when every push has notified, a waiter asleep and not woken has nothing to pop |
| `InboxWaiters.LooksThenSleeps` | instancy-integration/src/peer_link.rs:226-237 | a look takes its stream and is done, or finds none and sleeps |
| `InboxWaiters.WakesWereTold` | instancy-integration/src/peer_link.rs:226-237 | between two wakes of a waiter some push notified |
| `IterativeLoop.LeavesAtTheThreshold` | instancy-integration/src/workloads.rs:423-443 | a value leaves after the first round that takes it to the threshold, from the worker of its value before it |
| `IterativeLoop.LeaveTheLoop` | instancy-integration/src/workloads.rs:431-443 | the i64 loop ends without overflow with the reference's exit |
| `IterativeLoop.FedIsBelowExactly` | instancy-integration/src/workloads.rs:274-282 | the inputs fed are in range, and below the threshold if and only if that is above 1 |
| `IterativeLoop.FedIsEveryInput` | instancy-integration/src/workloads.rs:274-282 | every value from 1 to max(threshold - 1, 1) is fed for some random number |
| `IterativeLoop.StepKeepsInv` | instancy-integration/src/dataflows.rs:294-314 | no step of any record changes where it will leave and what it will be |
| `IterativeLoop.EverySchedule` | instancy-integration/src/dataflows.rs:294-314 | every schedule takes exactly the steps the inputs call for, and can go on until all have left |
| `IterativeLoop.NothingOverflows` | instancy-integration/src/dataflows.rs:294-314 | no value on any worker leaves the range of an i64 |
| `IterativeLoop.SchedulesAgree` | instancy-integration/src/workloads.rs:377-386 | after any complete schedule each worker's output is the reference's, per time, as a multiset |
| `Workloads.Group` | instancy-integration/src/workloads.rs:446-455 | each time that has records, with them sorted |
| `Workloads.SortedSorts` | instancy-integration/src/workloads.rs:451-453 | sorting gives a sorted permutation |
| `Workloads.GroupsCompare` | instancy-integration/src/workloads.rs:474-480 | groupings are equal exactly if the records are, as multisets |
| `Workloads.Difference` | instancy-integration/src/workloads.rs:509-527 | the side-by-side walk finds the two multiset differences |
| `Workloads.Compare` | instancy-integration/src/workloads.rs:474-506 | no report exactly if equal, else one entry for exactly each time that differs, with what is missing and unexpected |
| `Workloads.UnequalGroupsDiffer` | instancy-integration/src/workloads.rs:474-506 | a failed comparison always has something to report |
| `Workloads.CheckWorker` | instancy-integration/src/workloads.rs:377-386 | the check passes exactly on the reference's multiset |
| `Workloads.EveryScheduleChecksOut` | instancy-integration/src/workloads.rs:377-386 | so it passes on every worker after every complete schedule |
| `Coordinator.NodeState.Deliver` | instancy-integration/src/coordinator.rs:191-222 | routes a response to its pending request or an event to the outcomes, and says by what it breaks the protocol, if it does |
| `Coordinator.NodeState.Close` | instancy-integration/src/coordinator.rs:225-236 | closes, keeps the first problem and answers every pending request once |
| `Coordinator.NodeState.Enter` | instancy-integration/src/coordinator.rs:550-565 | a request becomes pending, or is answered at once if closed |
| `Coordinator.NodeState.Withdraw` | instancy-integration/src/coordinator.rs:573-579 | an unwritten request is answered unless it already was |
| `CoordinatorRuns.AtMostOneAnswer` | instancy-integration/src/coordinator.rs:191-236 | a request has at most one answer, none exactly while pending or not looked at; closed means none pending |
| `CoordinatorRuns.ClosedMeansAnswered` | instancy-integration/src/coordinator.rs:542-581 | once closed every request whose send is over has exactly one answer |
| `CoordinatorRuns.AnswersStay` | instancy-integration/src/coordinator.rs:191-236 | an answer given is never changed or repeated |
| `CoordinatorRuns.ClosedStays` | instancy-integration/src/coordinator.rs:225-236 | the connection, once closed, stays closed with nothing pending |
| `CoordinatorRuns.AnswersComeFromTheirRequest` | instancy-integration/src/coordinator.rs:191-236 | a node's response reaches only the request it names, and an error only at the end of the send or the connection |
| `CoordinatorReports.OutcomesAreReported` | instancy-integration/src/coordinator.rs:204-219 | over every run a dataflow has an outcome if and only if the node reported it, and it is what the last report says: success, or its error text, or none |
| `CoordinatorReports.StepReports` | instancy-integration/src/coordinator.rs:204-219 | a report changes its own dataflow's outcome, and nothing else changes any |
| `CoordinatorReports.AllowedExactly` | instancy-integration/src/coordinator.rs:191-222 | a delivery is allowed exactly if it answers a request still awaited, with that answer, or reports a dataflow for the first time; otherwise reading ends with the problem it broke the protocol by |
| `CoordinatorReports.ProblemIsKept` | instancy-integration/src/coordinator.rs:225-231 | the problem reading ended with is the one kept once closed, and none before |
| `CoordinatorReports.FirstProblemWins` | instancy-integration/src/coordinator.rs:228-231 | however often it is closed, the first problem there was is kept |
| `CoordinatorReports.ClosedHasEnded` | instancy-integration/src/coordinator.rs:330-353 | a closed connection's reading did end, with the problem that is kept |
| `CoordinatorReports.ErrorsNameTheProblem` | instancy-integration/src/coordinator.rs:232-235 | after that every error a request gets carries that problem, except that of a request that could not be written |
| `CoordinatorReports.NoErrorsWhileReading` | instancy-integration/src/coordinator.rs:542-581 | before it the only error is that of a request that could not be written |
| `RestartChain.Owner` | instancy-integration/src/coordinator.rs:269-279 | the newest process that ran the dataflow, or the newest of all |
| `RestartChain.OwnerSpeaks` | instancy-integration/src/coordinator.rs:242-292 | outcome and stopped_running both speak of that one process |
| `Words64.XorShiftUndoes` | instancy/src/hash.rs:100-109 | the finaliser's shift-and-xor undoes itself |
| `Words64.MulUndoes` | instancy/src/hash.rs:85-90 | wrapping multiplication is undone by the inverse multiplier |
| `StableHash.MixIsBijective` | instancy/src/hash.rs:84-90 | mixing is a bijection of the state and of the word |
| `StableHash.FinishIsBijective` | instancy/src/hash.rs:100-109 | the finaliser is a bijection |
| `StableHash.HashIsBijective` | instancy/src/hash.rs:84-109 | with all other words fixed, each hash comes from exactly one value of any one word |
| `StableHash.StableHashIsBijective` | instancy/src/hash.rs:171-175 | no two u64 keys share a hash, and every hash has its key |
| `WordBytes.Splits` | instancy/src/hash.rs:84-89 | exclusive or of two words splits at any bit |
| `GoldenHashes.HashByXor` | instancy/src/hash.rs:84-109 | the hash is the one computed step by step over any operation that works bit by bit, with exclusive or for it |
| `GoldenHashes.GoldenZero` | instancy/src/hash.rs:191 | the golden hash of key 0 |
| `GoldenHashes.GoldenOne` | instancy/src/hash.rs:192 | the golden hash of key 1 |
| `GoldenHashes.GoldenMax` | instancy/src/hash.rs:193 | the golden hash of the largest key |
| `GoldenHashes.GoldenPair` | instancy/src/hash.rs:194 | the golden hash of the pair (1, 2) |
| `GoldenHashes.GoldenName` | instancy/src/hash.rs:195 | the golden hash of the bytes of "instancy" |
| `GoldenHashes.GoldenProtocol` | instancy/src/hash.rs:196 | the golden hash of the bytes of "cluster-protocol" |
| `StableHash.WritesDecode` | instancy/src/hash.rs:112-126 | the words of any sequence of byte writes decode to those writes |
| `StableHash.StableHasher.Mix` | instancy/src/hash.rs:84-90 | updates the state as specified |
| `StableHash.StableHasher.Write` | instancy/src/hash.rs:112-126 | writing bytes mixes in exactly the specified word list |
| `StableHash.StableHasher.WriteAll` | instancy/src/hash.rs:112-126 | several writes mix in their word lists, one after the other |
| `StableHash.StableHasher.Finish` | instancy/src/hash.rs:100-109 | the finaliser, computed on a copy |

## Left out

- Executor and token methods as classes: they run concurrently, so each is a program of atomic steps on values; aliasing of task and token handles is not captured.
- Weak memory orderings, mutex poisoning and panicking destructors: steps are sequentially consistent and locks do not fail.
- The policy-ordered ready queue and parking of pool threads: the ready queue is first in, first out, and a pool thread may dequeue whenever it is ready.
- Creating tokens while others run: the tree is fixed, since a token created late is one nobody has touched; dropping tokens and drop guards are not modelled.
- Sockets, tokio tasks, timeouts, JSON and bincode: only the state they change is modelled.
- Rounding in the throttle, overflow of Instant and of the 64-bit forwarded counter: exact reals and unbounded numbers stand for them.
- Both directions of a relayed connection at once: they share the control, and a failure in one ends both; one is modelled, with actions and the other's failure arriving at any time. What a close discards afterwards is not.
- from_utf8's own code: the prefix laws hold for any predicate on byte strings that includes ASCII, and UTF-8 itself is the grammar of RFC 3629, section 4.
- Hash implementations of types other than u64 and byte strings: which writes a key makes is not modelled.
- The scheduling of batches, notifications and progress in the iterative dataflow: one record takes one step at a time, in any order.
- The other workloads, the random number generator and PageRank: only the iterative one is checked end to end.
- The number abort_all returns: it only counts the tasks that became DONE.
- Text of error messages and of the comparison report: only what is reported is modelled.
- RestartChain: processes are values, taken at one moment.
- Pairing of dialed and accepted connections by node ID order, and node_set_key: easy members beside the inbox.
