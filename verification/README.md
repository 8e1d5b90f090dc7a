# DapperCode verification

A Dafny model of the parts of DapperCode where correctness is about whole histories rather than
single calls, with proofs about every history:

- **The AG-UI projector** (`AgUi*.dfy`, `Utf8.dfy`, `Snapshot.dfy`, `StructuredState.dfy`).  The class
  `AgUiProjector.Projector` follows the Rust object method by method; each method is proved equal to a
  function of `AgUiCore`.  Against it stands `AgUiClient`, a reference client that is defined on the
  stream alone and rejects it at the first event that breaks the protocol.  The central theorem says
  exactly when the client accepts everything the projector emits, `AgUiProtocol` says in counts of events
  what acceptance means, and `AgUiEffects` and `AgUiClosing` say, over every sequence of calls, what is
  delivered of each message and tool of open and of closed runs.  `AgUiReceipt` says which events a run
  receives, `AgUiCards` and `AgUiProgress` which sub-agent cards are shown where and what a child's end
  leaves behind.  `AgUiTypes.SomeEnvIsValid` shows that the assumptions on the environment can be met.
- **The broker's worker pool** (`WorkerPool*.dfy`).  A transition system whose labels are the critical
  sections, awaits and atomic operations of `acquire_client`, `release_client`, `sweep_locked` and
  `shutdown`; tasks interleave freely and may be cancelled at every await.  Safety over every run comes
  with what a call gets: how it reaches a session, how it can end, and what becomes of sessions.
- **The credential index** (`TokenIndex.dfy`), an index proved to agree with a scan.
- **The calendar conversion and the port allocators** (`Calendar.dfy`, `Ports.dfy`).
- **Configuration** (`ConfigStore.dfy`, `ConfigMigration.dfy`, `ConfigOrder.dfy`, `Setup*.dfy`): the v1 to v2 upgrade, and
  every sequence of setups and removals.
- **Durable idempotency state** (`Dedupe*.dfy`).
- **The macOS status observer** (`Observer*.dfy`, `StatusObserver.dfy`).

`Wrappers.dfy` and `Ordering.dfy` hold the option type and the facts about sorting that several of these
share.  `dafny verify dfyconfig.toml` checks the whole project.

## What turned out false

Five properties that the code suggests do not hold of it.  Each has a concrete failing input and an
exact condition.

- *The projected stream is always well bracketed.*  `RUN_STARTED` on a thread with an open implicit run
  leaves the thread's entry in the queue of observed runs.  `AgUiQueue.StaleStreamRejected` is a
  sequence of 259 calls after which the stream closes a run it has not opened.
  `AgUiStream.StreamAcceptedIff` gives the exact condition, and `AgUiQueue.DisciplinedStreamAccepted` a
  simple one that callers can keep.
- *A worker marked for retirement is stopped or unmarked.*  Cancelling a task while its sweep stops a
  marked worker, removes its record or takes the mark off leaves the record marked.
  `WorkerPoolRetirement.MarksOwnedIff` is the exact condition over runs: every marked record belongs to the
  sweep in progress throughout a run if and only if the run holds no such cancellation.
  `WorkerPoolRetirement.StrandedIff` says which marked records are lost: exactly the stranded ones stay
  marked in every continuation without a shutdown.  `WorkerPoolSafety.CancelStrandsIff` says when a
  cancellation strands a record, and `WorkerPoolStranding.CancelledSweepLosesThePool` is a run after which a
  pool of one worker never serves again.
- *The pool counts as clients of a worker the sessions it serves.*  A record is removed and a session
  released by profile id alone, so a session on a dead worker is later taken off the count of the worker
  that replaced it.  `WorkerPoolOrphans.MiscountReachable` gives the run, for a pool of any size;
  `WorkerPoolSessions.ExactIff` is the exact condition over runs, that no step removes a record with
  clients, and `WorkerPoolSessions.RetiresUnused` what it is good for.
- *A profile's preview port differs from the broker's port.*  Moving the broker skips the ports of the
  other profiles only.  `SetupClash.ClashIsReachable` is a run of two setups,
  `SetupProofs.ClearThroughoutIff` the exact condition over runs, and `SetupProofs.ExplicitClashIff` what it
  means for a setup that asks for a port.
- *The v1 upgrade does not depend on the order of the profiles.*  `ConfigOrder.OrderFreeIff` is the exact
  condition: any two stored profiles with one id are equal, or their id is not the first and they agree on
  preview port, start setting and details, which the upgrade keeps.  `ConfigOrder.OrderShows` gives, for
  every pair that is not so, two orders that upgrade differently; distinct ids are enough
  (`ConfigOrder.UpgradeIgnoresOrder`).

## Model

| member | source | states |
|---|---|---|
| `Utf8.BoundaryIff` | services/rust-bridge/src/agui.rs:2628-2638 | a byte offset of a text's UTF-8 encoding is a character boundary exactly when it is the size of some prefix of the text |
| `Utf8.BoundedIsLongestPrefix` | services/rust-bridge/src/agui.rs:2628-2638 | the bounded text is a prefix within the limit, and no longer prefix is |
| `Utf8.BoundedBytes` | services/rust-bridge/src/agui.rs:2628-2638 | the byte loop that backs up to a boundary yields the encoding of the longest fitting prefix |
| `Utf8.ChunkingStopsIff` | services/rust-bridge/src/agui.rs:2466-2480 | the chunk iterator ends if and only if no single character is wider than the limit |
| `Utf8.FourBytesFitEverything` | services/rust-bridge/src/agui.rs:2466-2480 | with a limit of at least four bytes it always ends |
| `Utf8.ChunksRoundTrip` | services/rust-bridge/src/agui.rs:2466-2480 | the chunks concatenate to the text, and each is non-empty and within the limit |
| `Utf8.ChunkEnd` | services/rust-bridge/src/agui.rs:2466-2480 | one step of the iterator cuts the bytes at the longest fitting prefix of whole characters |
| `Utf8.Utf8Chunks` | services/rust-bridge/src/agui.rs:2466-2480 | the drained byte iterator yields the encodings of exactly those chunks |
| `AgUiRunProofs.StructuredAccepted` | services/rust-bridge/src/agui.rs:2482-2524 | a structured payload reaches the client intact, sent whole or reassembled from chunks in index order under its revision |
| `AgUiRunProofs.ChunkStepAccepted` | services/rust-bridge/src/agui.rs:183-380 | the events of a message chunk are accepted, and client and run state agree again afterwards |
| `AgUiRunProofs.ChunkEffect` | services/rust-bridge/src/agui.rs:208-247 | what one chunk adds to the delivered text and when it raises the truncation notice |
| `AgUiRunProofs.ToolStepAccepted` | services/rust-bridge/src/agui.rs:422-571 | the events of a tool update are accepted, and the client's row then holds the tool's text and end flag |
| `AgUiRunProofs.CloseAccepted` | services/rust-bridge/src/agui.rs:2311-2371 | closing a run is accepted and leaves no message open and no unclassified tool unended |
| `AgUiStream.EndRunTracks` | services/rust-bridge/src/agui.rs:1179-1231 | settling the sub-agents of a run and closing it keeps the client in step |
| `AgUiStream.EnsureObservedTracks` | services/rust-bridge/src/agui.rs:1077-1131 | opening an implicit run, with the eviction it may cause, keeps the client in step unless the evicted entry is the thread's own stale one |
| `AgUiStream.EnsureObservedStale` | services/rust-bridge/src/agui.rs:1077-1131 | in that case the client rejects the stream |
| `AgUiStream.CloseObservedTracks` | services/rust-bridge/src/agui.rs:1134-1165 | closing an implicit run keeps the client in step |
| `AgUiStream.OnRunStartedTracks` | services/rust-bridge/src/agui.rs:137-182 | so does starting a run, which supersedes the open one |
| `AgUiStream.OnRunEndedTracks` | services/rust-bridge/src/agui.rs:857-927 | so does ending one |
| `AgUiStream.ProjectProgressTracks` | services/rust-bridge/src/agui.rs:1273-1402 | so does the progress of a linked child, terminal or not |
| `AgUiStream.StreamAcceptedIff` | services/rust-bridge/src/agui.rs:132-1075 | for every sequence of calls, the reference client accepts the whole stream if and only if no call opens an implicit run over a stale queue entry of its own thread |
| `AgUiStream.ClientInStep` | services/rust-bridge/src/agui.rs:132-1075 | and then what the client holds of every open run is what the projector records: open text ids, reasoning id, bytes delivered, notices, and each tool's text and flags |
| `AgUiProtocol.RunsAlternate` | services/rust-bridge/src/agui.rs:137-182 | on each thread runs open and close in turn with matching ids, and every message and tool event carries the id of the open run |
| `AgUiProtocol.RunsEndBracketed` | services/rust-bridge/src/agui.rs:2311-2371 | when a run closes: every message that started has ended, each tool call started at most once and, unless it became a card, ended as often as it started, and no message got more than 32 KiB or two notices |
| `AgUiProtocol.OpenRunExact` | services/rust-bridge/src/agui.rs:183-571 | of every open run: the messages started and not ended are exactly the open user and agent messages, reasoning likewise; a tool that is not a card has started exactly once and ended exactly when recorded; notices match the record |
| `AgUiProtocol.ReplaysRun` | services/rust-bridge/src/agui.rs:132-1075 | what the client holds of an open run is the replay of that run's own events |
| `AgUiProtocol.RunAccounts` | services/rust-bridge/src/agui.rs:208-380 | the view of a run is an exact account of its events: starts, ends, notices, classifications and delivered text |
| `AgUiQueue.DisciplinedStreamAccepted` | services/rust-bridge/src/agui.rs:137-182 | the stream is accepted to its end if no call starts or ends an implicit run by name |
| `AgUiQueue.DisciplinedExact` | services/rust-bridge/src/agui.rs:1077-1165 | under that discipline the queue lists exactly the threads with an implicit run, once each and at most 256 |
| `AgUiQueue.StaleStreamRejected` | services/rust-bridge/src/agui.rs:144-182 | for any child, parent and 254 other threads: 259 calls, one of which prompts a thread with an implicit run, after which the stream is rejected |
| `AgUiFence.FloorNeverDrops` | services/rust-bridge/src/agui.rs:605-664 | while a link persists no call lowers its generation floor, and replacing its invocation lifts the floor above the generation observed before |
| `AgUiFence.FloorsAlwaysHold` | services/rust-bridge/src/agui.rs:1238-1314 | in every reachable state a recorded child generation is at or above the floor |
| `AgUiFence.StaleGenerationsFenced` | services/rust-bridge/src/agui.rs:1273-1314 | after a re-task replaced an invocation observed at generation g, no event of generation at most g on the child's thread shows a card or changes any state through the link, for as long as the link persists |
| `AgUiCards.ToolStepLinks` | services/rust-bridge/src/agui.rs:545-671 | a tool update links a child exactly when the tool's text then names it as a task still at work, and never together with finishing one |
| `AgUiCards.LinksHang` | services/rust-bridge/src/agui.rs:596-671 | after every sequence of calls, every link is its child's own and hangs on the thread, run and tool of the call or tool update that last linked the child |
| `AgUiCards.CardsGoToTheParent` | services/rust-bridge/src/agui.rs:1273-1402 | after every sequence of calls, an event on a linked child's thread that is of the run and generation followed, is not a repetition and changes what was rendered shows exactly one card beyond its own thread's, first of all, on the tool call that last linked the child, naming the child; every other event shows none |
| `AgUiCards.UpdateShows` | services/rust-bridge/src/agui.rs:541-763 | a tool update shows no card if the card stays as it is, and otherwise one, on the tool's own thread and run for the child it names, with the child's status, which a failure outlives |
| `AgUiCards.ClosingShows` | services/rust-bridge/src/agui.rs:1179-1231 | a closing run shows one last card for each card that has not ended, with the status known of it or that of the run, and records it |
| `AgUiProgress.TrackIs` | services/rust-bridge/src/agui.rs:1320-1342 | the tool that goes on is the latest in flight, a settled one is not, the others stay except the oldest of sixteen |
| `AgUiProgress.ToolInFlight` | services/rust-bridge/src/agui.rs:1320-1342 | a tool of a followed child is in flight, as the latest, from an update that it is in progress until one that it has ended; narration changes nothing |
| `AgUiProgress.LinksInUse` | services/rust-bridge/src/agui.rs:1273-1402 | in every reachable state no link shows an ended child |
| `AgUiProgress.ProgressGoesOn` | services/rust-bridge/src/agui.rs:1282-1378 | an event of another run or generation changes nothing; one that does not end the child changes its link alone, which remembers what is shown and follows the run that starts |
| `AgUiProgress.EndsIff` | services/rust-bridge/src/agui.rs:1379-1402 | an event ends a link in use if and only if it is the end of the run that the link follows |
| `AgUiProgress.ChildEnds` | services/rust-bridge/src/agui.rs:1379-1402 | after every sequence of calls, when the run a link follows ends, the card of the tool call that last linked the child shows how, the link is gone, and the tool in the parent's open run has that status, which its last card then shows however the run closes |
| `AgUiReceipt.OpenRunReceivesIff` | services/rust-bridge/src/agui.rs:2294-2309 | after every sequence of calls, an open run receives an event for one of its messages or tools if and only if the event names no other run and no other turn |
| `AgUiReceipt.IdleThreadOpensIff` | services/rust-bridge/src/agui.rs:1077-1131 | an event on an idle thread opens the implicit run if and only if it carries something, names no run and no turn and the thread is not closed; the run has then received that event alone |
| `AgUiReceipt.EventsExplained` | services/rust-bridge/src/agui.rs:137-927 | messages start and grow only by their own chunks and in their role; a run closes as errored, superseded or finished only for that cause, or as finished if implicit, and an event that ends a client's run closes it so |
| `AgUiBounds.TablesBounded` | services/rust-bridge/src/agui.rs:16-21 | after every sequence of calls: at most 2048 closed threads, 2048 links and 256 implicit runs listed, and per link at most 16 tools in flight and 1024 revisions |
| `AgUiBounds.StartOpens` | services/rust-bridge/src/agui.rs:137-182 | a run that starts is open under its own name and turn with nothing received |
| `AgUiBounds.EndCloses` | services/rust-bridge/src/agui.rs:857-927 | when the open run of a thread ends it is gone and the thread is closed |
| `AgUiBounds.EndDropsLinks` | services/rust-bridge/src/agui.rs:857-927 | a run that fails, is cancelled or is superseded takes the links of its tool calls with it, one that completes leaves them |
| `AgUiBounds.EndFinishesChildren` | services/rust-bridge/src/agui.rs:1179-1231 | the implicit runs of children whose end is known, or whose parent failed, end with the parent's run |
| `AgUiEffects.LetThroughUntilFirstDrop` | services/rust-bridge/src/agui.rs:2394-2408 | what the live budget lets through starts with the message up to the first dropped byte, and is the whole message exactly when that fits |
| `AgUiEffects.FoldIsReceived` | services/rust-bridge/src/agui.rs:484-510 | the bounded text of a tool is what its updates set and appended in order, up to the first byte that a bound cut, and all of it exactly when that fits 64 KiB |
| `AgUiCalm.StepCalm` | services/rust-bridge/src/agui.rs:132-1075 | a call that does not name a message or tool emits no event about it, unless the run it belongs to ends in the same call |
| `AgUiCalm.AcceptCalm` | services/rust-bridge/src/agui.rs:2311-2371 | such events leave what a client holds of the message or tool as it was, or empty if they opened the run |
| `AgUiEffects.RunHolds` | services/rust-bridge/src/agui.rs:183-571 | after every sequence of calls, what a client holds of a message or tool of an open run is what the run has received for it, whatever was interleaved and however the events addressed the run |
| `AgUiEffects.LiveMessage` | services/rust-bridge/src/agui.rs:208-247 | after every sequence of calls, for every message of every open run: the streamed deltas are the received text up to the first byte dropped for the 32 KiB budget, and all of it exactly when it fits; one notice if text was dropped or a truncated block seen, none otherwise |
| `AgUiEffects.LiveTool` | services/rust-bridge/src/agui.rs:484-510 | after every sequence of calls, for every tool of an open run that is not a card: its text, in the projector and at the client, is the last value set (nothing after a clearing) followed by the values appended since, up to the first byte cut at 64 KiB and all of it exactly when that fits; it has started once, and ended exactly when one of the updates was terminal |
| `AgUiEffects.CardsAreSilent` | services/rust-bridge/src/agui.rs:422-483 | a tool whose first update in the run marks it as a sub-agent is a card and has emitted no tool-call event, however many updates followed |
| `AgUiClosing.CloseHolds` | services/rust-bridge/src/agui.rs:2311-2371 | whenever a call closes a run, what a client holds at that point of a message or tool is what the run has received for it |
| `AgUiClosing.ClosedRun` | services/rust-bridge/src/agui.rs:2311-2371 | of every closed run: each message streamed the received text up to the first dropped byte, with a notice exactly when due; each tool with an update that is no card started once, ended once and holds what its updates set and appended, within the bound; a tool marked by its first update emitted no tool-call event |
| `AgUiProtocol.CardsStaySilent` | services/rust-bridge/src/agui.rs:422-483 | at every point of the stream, also where a run closes: a tool that became a card before it started has emitted no start, arguments, end or result in its run |
| `AgUiProtocol.NeverEndsBeforeStart` | services/rust-bridge/src/agui.rs:422-571 | at every point of the stream no end has come before its start, and no tool call has started twice |
| `AgUiProtocol.ContentTargetsOpen` | services/rust-bridge/src/agui.rs:248-380 | content, arguments, results and ends target only what is open at that point of the stream |
| `AgUiProjector.Projector.MarkThreadClosed` | services/rust-bridge/src/agui.rs:1167-1177 | the method computes the specification's next state |
| `AgUiProjector.Projector.CloseRun` | services/rust-bridge/src/agui.rs:2311-2371 | the loop over the tools, in any hash order, emits the specification's closing events |
| `AgUiProjector.Projector.CloseObservedRun` | services/rust-bridge/src/agui.rs:1134-1165 | state and events are the specification's |
| `AgUiProjector.Projector.EnsureObservedRun` | services/rust-bridge/src/agui.rs:1077-1131 | state and events are the specification's, evictions included |
| `AgUiProjector.Projector.TerminalizeTools` | services/rust-bridge/src/agui.rs:1179-1231 | the loop over the sub-agent cards of a run yields the specification's tools, cards and ended children |
| `AgUiProjector.Projector.EndOpenRun` | services/rust-bridge/src/agui.rs:857-927 | state and events are the specification's |
| `AgUiProjector.Projector.LinkSubagent` | services/rust-bridge/src/agui.rs:1238-1271 | the link is added, with room made for it, unless the child is linked already |
| `AgUiProjector.Projector.RelinkSubagent` | services/rust-bridge/src/agui.rs:605-664 | the link of a tasked child is the specification's, floor included |
| `AgUiProjector.Projector.ProjectSubagentProgress` | services/rust-bridge/src/agui.rs:1273-1402 | state and events are the specification's |
| `AgUiProjector.Projector.ProjectCanonical` | services/rust-bridge/src/agui.rs:132-1075 | for every canonical event, state and events are the specification's |
| `AgUiProjector.ProjectStream` | services/rust-bridge/src/agui.rs:132-1075 | a new projector fed with any calls emits the specified stream, accepted exactly under the condition above |
| `Snapshot.RemoveOldestGroup` | services/rust-bridge/src/agui.rs:1604-1633 | the in-place removal drops the oldest message with the call or result it belongs to, and at least one message |
| `Snapshot.TrimmedIsCut` | services/rust-bridge/src/agui.rs:1604-1633 | after any number of removals what is left begins at a timeline entry or at the call of a tool |
| `Snapshot.TrimSnapshot` | services/rust-bridge/src/agui.rs:1588-1602 | given distinct tool ids, the trimmed snapshot is the first of the successive removals that fits or has at most one message; it is a suffix of the original and holds a call exactly when it holds its result |
| `StructuredState.ToolState.ApplyUpdates` | services/rust-bridge/src/agui.rs:2526-2565 | the state fits the budget after giving up the least number of elements, and the truncation flag and the returned flag are exact |
| `StructuredState.CutIsPrefix` | services/rust-bridge/src/agui.rs:2541-2555 | elements are given up from the end, and content only once no location is left |
| `StructuredState.FoldIsCarried` | services/rust-bridge/src/agui.rs:2526-2540 | when nothing is given up, a list holds in order the values carried since its last replacement |
| `WorkerPoolProofs.AlwaysInv` | apps/desktop/src/broker.rs:1226-1511 | after every run, with any interleaving and any cancellations, the pool's invariant holds |
| `WorkerPoolProofs.NextKeeps` | apps/desktop/src/broker.rs:1226-1511 | every step of every task keeps it |
| `WorkerPoolSafety.CapacityNeverExceeded` | apps/desktop/src/broker.rs:1253-1331 | recorded workers plus reserved launches never exceed the limit, and the counter is the number of live reservations |
| `WorkerPoolSafety.OneLaunchPerProfile` | apps/desktop/src/broker.rs:1226-1239 | at most one launch per profile is in flight, and none for a recorded profile |
| `WorkerPoolSafety.InsertNeverOverwrites` | apps/desktop/src/broker.rs:1304-1331 | inserting a worker adds one record and changes no other |
| `WorkerPoolSafety.UsesNeverTie` | apps/desktop/src/broker.rs:1288-1342 | no two records carry the same use number |
| `WorkerPoolSafety.RetirementSafe` | apps/desktop/src/broker.rs:1364-1493 | a marked record has no client and gains none while marked; a step marks only a clientless record whose worker said last that it may retire and that has had no client and was not known busy for the whole grace period, or whose history ends in three failures |
| `WorkerPoolSafety.FailuresAreInARow` | apps/desktop/src/broker.rs:1374-1391 | the failure count is exactly the length of the run of failures at the end of the record's history |
| `WorkerPoolSafety.CancelStrandsIff` | apps/desktop/src/broker.rs:1412-1493 | cancelling the task whose sweep is stopping, removing or unmarking p strands p exactly when its record is marked and no other call is acting on it |
| `WorkerPoolRetirement.MarksOwnedIff` | apps/desktop/src/broker.rs:1412-1493 | throughout a run every marked record is the one the sweep in progress is acting on, if and only if no step cancels the task of a sweep that is acting on a marked record |
| `WorkerPoolRetirement.UnstrandedRecovers` | apps/desktop/src/broker.rs:1276-1282 | a marked record that is not stranded has a continuation without a shutdown that removes or unmarks it |
| `WorkerPoolRetirement.StrandedIff` | apps/desktop/src/broker.rs:1253-1303 | a marked record stays marked in every continuation without a shutdown if and only if it is stranded |
| `WorkerPoolSafety.StrandedForever` | apps/desktop/src/broker.rs:1253-1303 | a stranded record stays marked and clientless in every run without a shutdown |
| `WorkerPoolStranding.CancelledSweepLosesThePool` | apps/desktop/src/broker.rs:1344-1494 | a run after which a pool of one worker holds a marked record for ever and has no room for another |
| `WorkerPoolService.ReuseServes` | apps/desktop/src/broker.rs:1253-1298 | from every reachable state, a call that decides with an unmarked record of its profile reaches, by its own steps and an answering worker, a session: one more client on that record, one more session of the profile, all else as it was |
| `WorkerPoolService.LaunchServes` | apps/desktop/src/broker.rs:1253-1331 | from every reachable state, a call that decides with no record and room for one reaches a session on a worker of its own launch, with its reservation given back |
| `WorkerPoolService.CallServes` | apps/desktop/src/broker.rs:1226-1331 | both from the start of the call to its return |
| `WorkerPoolService.CallEndsOnly` | apps/desktop/src/broker.rs:1226-1331 | a call ends only by returning, a failed launch, cancellation before it has a session, a decision that finds its profile unrecorded and the pool full, or the failure of its own sweep |
| `WorkerPoolSessions.SessionsConserved` | apps/desktop/src/broker.rs:1288-1342 | in every run, sessions not released are exactly those that calls have returned and one for each call about to return, profile by profile |
| `WorkerPoolSessions.NeverOvercounts` | apps/desktop/src/broker.rs:1333-1342 | in every reachable state a record counts no more clients than its profile has sessions |
| `WorkerPoolSessions.ExactIff` | apps/desktop/src/broker.rs:1276-1342 | throughout a run the client counts are exactly the sessions if and only if no step removes a record that has clients |
| `WorkerPoolSessions.RetiresUnused` | apps/desktop/src/broker.rs:1333-1494 | in such a run a worker marked for retirement serves no session |
| `WorkerPoolOrphans.DeadWorkerReplaced` | apps/desktop/src/broker.rs:1276-1331 | from every reachable state, a call that finds its worker dead gets a session on a new one, whose record starts with that client alone |
| `WorkerPoolOrphans.ReplacementMiscounted` | apps/desktop/src/broker.rs:1333-1342 | the next release of the profile then makes the new worker look unused, while the profile has as many sessions as before |
| `WorkerPoolOrphans.MiscountReachable` | apps/desktop/src/broker.rs:1276-1342 | in a pool of any size, a run after which no client is counted for a worker that serves a session |
| `WorkerPoolCull.CullRemovesUnreachable` | apps/desktop/src/broker.rs:1396-1434 | an uninterrupted pass over the unreachable workers removes exactly them, in whatever order they are listed, and changes nothing else |
| `WorkerPoolCull.CullPasses` | apps/desktop/src/broker.rs:1396-1434 | such a pass exists from every state in which a sweep looks for them |
| `WorkerPoolEviction.QuietPassEvictsLru` | apps/desktop/src/broker.rs:1436-1494 | from any reachable state, every run of the eviction pass that nothing interrupts evicts the sweep's quota of idle, grace-expired workers, or all of them, least recently used first, and changes nothing else; if every idle worker was past grace, at most the allowed number stay idle |
| `WorkerPoolEviction.QuietEviction` | apps/desktop/src/broker.rs:1463-1494 | such a run exists for every order in which the idle workers are listed |
| `WorkerPoolEviction.LruIsUnique` | apps/desktop/src/broker.rs:1436-1494 | there is only one such outcome |
| `WorkerPoolEviction.IdleBounded` | apps/desktop/src/broker.rs:1448-1462 | evicting at least the excess of idle workers, all past grace, leaves at most the allowed number idle |
| `TokenIndex.LoadRegistryCache` | apps/desktop/src/broker.rs:752-783 | loading fails exactly when a secret cannot be read; otherwise both indexes agree with a scan of the profiles |
| `TokenIndex.DigestNamesUniqueOwner` | apps/desktop/src/broker.rs:763-777 | a digest names a profile if and only if that profile alone has it |
| `TokenIndex.AuthenticateIff` | apps/desktop/src/broker.rs:695-749 | access is granted to p if and only if the trimmed bearer token, or only without one the trimmed query token with p allowing those, has a digest that is p's alone, and the claim, of the header before the query, names no other workspace; with another claim it is forbidden, and every other request is unauthorized |
| `TokenIndex.EntitledIsOne` | apps/desktop/src/broker.rs:695-749 | a request is entitled to at most one profile |
| `TokenIndex.BearerHidesQuery` | apps/desktop/src/broker.rs:706-709 | with a bearer token present the outcome does not depend on the query token |
| `Calendar.EraIsFloor` | apps/desktop/src/setup.rs:442-443 | truncating division with the offset for negative days is a floor |
| `Calendar.YearFromDigits` | apps/desktop/src/setup.rs:444-448 | the year formula recovers the year of every day of an era |
| `Calendar.CivilIsRight` | apps/desktop/src/setup.rs:441-457 | for every integer day the result is a valid Gregorian date whose day number is that day |
| `Calendar.CivilRoundTrip` | apps/desktop/src/setup.rs:441-457 | every valid date is the result for its own day number, so days and dates are in bijection |
| `Calendar.CivilSucceeds` | apps/desktop/src/setup.rs:441-457 | day 0 is 1970-01-01 and day n + 1 is the calendar successor of day n |
| `Calendar.CivilKeepsOrder` | apps/desktop/src/setup.rs:441-457 | later days have later dates |
| `Ports.AllocatePreviewPort` | apps/desktop/src/config.rs:338-369 | an existing profile keeps its port; otherwise the least free port from the start on, and failure exactly when there is none up to 65535 |
| `Ports.FirstPair` | apps/desktop/src/config.rs:319-335 | the first free pair among start, start + 2, ... that does not overflow, and none exactly when no such pair is free |
| `Ports.FindPair` | apps/desktop/src/config.rs:319-335 | the search loop returns that pair |
| `Ports.AllocatePortPair` | apps/desktop/src/config.rs:290-336 | the pair is consecutive, bindable and unclaimed by other profiles; an explicit request gets its own port, or nothing exactly when that is not free; otherwise the first free pair in step, and nothing exactly when there is none |
| `ConfigStore.AppConfig.UpgradeFromV1` | apps/desktop/src/store.rs:296-311 | the object holds the specified upgrade, and the result says whether it is valid |
| `ConfigStore.AppConfig.Upsert` | apps/desktop/src/store.rs:334-349 | the profile replaces the one with its id or is added at the end, and a missing broker is made from it |
| `ConfigStore.AppConfig.Remove` | apps/desktop/src/store.rs:352-361 | exactly the profiles with that id go, and the broker with the last profile |
| `ConfigStore.ShareEndpoint` | apps/desktop/src/store.rs:303-307 | the loop points every profile at the broker |
| `ConfigOrder.UpgradeIgnoresOrder` | apps/desktop/src/store.rs:296-311 | with distinct ids, permuting the stored profiles does not change the upgrade or the migration |
| `ConfigOrder.OrderFreeIff` | apps/desktop/src/store.rs:296-311 | the upgrade is the same for every order of the stored profiles if and only if any two with one id are equal, or their id is not the first and they agree on what the upgrade keeps |
| `ConfigOrder.OrderShows` | apps/desktop/src/store.rs:296-311 | for every pair of profiles that breaks this, two orders whose upgrades differ |
| `ConfigMigration.UpgradeCovers` | apps/desktop/src/store.rs:428-460 | the canonical endpoint, network mode, preview port and URLs are those of a profile with the first id; with the legacy list, which is strictly sorted and without it, the endpoint makes up exactly the endpoints the profiles had; the broker starts by itself if and only if some profile did |
| `ConfigMigration.UpgradeKeepsProfiles` | apps/desktop/src/store.rs:296-311 | no profile is added or lost, each keeps id, preview port, start setting and details, and takes the broker's network mode, endpoint and connect URL and the preview URL of its own port |
| `ConfigMigration.MigratesOnce` | apps/desktop/src/store.rs:149-173 | a migrated configuration is valid and a second migration leaves it unchanged |
| `Setup.SettleBroker` | apps/desktop/src/setup.rs:211-294 | the broker part of a setup: kept, replaced with its old endpoints carried over, created, or refused |
| `Setup.ConfigFile.SetupProfile` | apps/desktop/src/setup.rs:209-327 | the stored configuration after a setup, unchanged when the setup fails |
| `Setup.ConfigFile.RemoveProfile` | apps/desktop/src/store.rs:217-234 | the stored configuration after a removal |
| `SetupProofs.IdsAndPortsDistinct` | apps/desktop/src/setup.rs:273-327 | after any setups and removals from an empty configuration, ids and preview ports are pairwise distinct, the profiles sorted, and all on the broker's endpoint |
| `SetupStored.SetUpStores` | apps/desktop/src/setup.rs:302-327 | after a successful setup the broker is at the endpoint asked for with the settings it had; exactly one profile has the request's id and it carries the request's details, the broker's network mode, endpoint and connect URL and the preview URL of its own port, with the preview port and start setting of the one it replaces; every other profile keeps id, preview port, start setting and details |
| `SetupStored.SetUpSucceedsIff` | apps/desktop/src/setup.rs:209-327 | a setup succeeds if and only if the request is acceptable, the endpoint stays or may move, a pair of ports is free for a new endpoint, and the profile has or finds a preview port |
| `SetupStored.ProfilesPoint` | apps/desktop/src/setup.rs:245-325 | after any setups and removals every profile points at the broker, with the preview URL of its own port |
| `SetupStored.RemovalStores` | apps/desktop/src/store.rs:217-234 | a removal takes exactly the profile with that id, leaves the others as they are, and takes the broker with the last |
| `SetupProofs.SetUpReaches` | apps/desktop/src/setup.rs:213-262 | a setup keeps every reachable endpoint and adds only the current one |
| `SetupProofs.EndpointsOnlyGrow` | apps/desktop/src/setup.rs:213-262 | over every run, no operation that leaves profiles behind makes an endpoint unreachable |
| `SetupProofs.SetUpClearIff` | apps/desktop/src/setup.rs:222-231 | preview ports stay off the broker's port exactly when the setup does not move the broker onto the preview port of the profile being set up |
| `SetupProofs.ClearThroughoutIff` | apps/desktop/src/setup.rs:213-327 | preview ports stay off the broker's port throughout a run of setups and removals if and only if no setup of it moves the broker onto the preview port of its own profile |
| `SetupProofs.ExplicitClashIff` | apps/desktop/src/setup.rs:222-231 | a setup that asks for a port does so exactly when it changes the endpoint to the port its own profile serves previews on |
| `SetupClash.ClashIsReachable` | apps/desktop/src/setup.rs:222-231 | two setups after which broker and preview share port 8788 |
| `Dedupe.BatchFits` | services/rust-bridge/src/app_state.rs:400-403 | the batch to drop is between one and the number of results left, and is the share of the results that the excess bytes have in the size, rounded up |
| `Dedupe.Compact` | services/rust-bridge/src/app_state.rs:368-419 | compaction ends, writes only what fits, drops results only when the state does not fit, and fails only when pending operations do not fit or nothing is left to drop |
| `Dedupe.DropBatch` | services/rust-bridge/src/app_state.rs:404-414 | the loop drops that many oldest results |
| `DedupeProofs.DropIsDropped` | services/rust-bridge/src/app_state.rs:404-414 | what is left of each queue is a suffix; forks go only after every creation, approvals only after every fork |
| `DedupeProofs.Persist` | services/rust-bridge/src/app_state.rs:368-419 | when every result is queued, writing succeeds if and only if the pending operations fit, stays within the budget, and writes the whole state if that fits |
| `DedupeProofs.StrayResultStays` | services/rust-bridge/src/app_state.rs:404-414 | a result that no queue lists is never dropped |
| `DedupeProofs.LoadAfterPersist` | services/rust-bridge/src/app_state.rs:267-318 | reading a written state back gives every pending operation, even if its queue was out of step, and the results of the last keys of each suffix written; a consistent state comes back as it was written |
| `DedupeProofs.TrimPendingListed` | services/rust-bridge/src/app_state.rs:347-366 | trimming makes the queue list exactly the pending operations left, at most the limit |
| `DedupeProofs.ReserveIs` | services/rust-bridge/src/app_state.rs:72-89 | reserving adds or renews an operation and forgets the oldest one only when full; the lane stays consistent |
| `DedupeProofs.ReleaseIs` | services/rust-bridge/src/app_state.rs:91-95 | releasing removes that operation only |
| `DedupeProofs.ReleaseUndoesReserve` | services/rust-bridge/src/app_state.rs:72-95 | releasing what was reserved restores the lane, when there was room |
| `DedupeProofs.CompleteIs` | services/rust-bridge/src/websocket_transport.rs:561-577 | completing an operation records the given result under its id at the end of the queue, forgets the oldest only when full, keeps the lane consistent and releases the operation only; a known result stays |
| `DedupeProofs.GoodAfterPersist` | services/rust-bridge/src/app_state.rs:267-318 | a consistent state comes back as it was written |
| `DedupeStore.TrimDedupe` | services/rust-bridge/src/app_state.rs:320-328 | the loop cuts the queue to its last keys and forgets the other results |
| `DedupeStore.TrimPendingQueue` | services/rust-bridge/src/app_state.rs:330-366 | the loops repair, extend and cut the pending queue, whatever the hash order |
| `DedupeStore.ReserveOperation` | services/rust-bridge/src/app_state.rs:55-115 | the lane is the specified one |
| `DedupeStore.ReleaseOperation` | services/rust-bridge/src/app_state.rs:66-121 | the lane is the specified one |
| `DedupeStore.CompleteOperation` | services/rust-bridge/src/websocket_transport.rs:561-577 | the lane is the specified one |
| `DedupeStore.Load` | services/rust-bridge/src/app_state.rs:267-310 | all six queues are trimmed as specified |
| `DedupeStore.OperationStore.PersistLocked` | services/rust-bridge/src/app_state.rs:193-212 | succeeds exactly when the disk does and the pending operations fit; unless it is marked dirty, a start from the file would find memory |
| `DedupeStore.OperationStore.Update` | services/rust-bridge/src/app_state.rs:178-191 | a failed update leaves memory as it was, and file and memory stay in step |
| `DedupeStore.OperationStore.Restart` | services/rust-bridge/src/app_state.rs:267-318 | a restart while no failed write is outstanding finds every pending operation |
| `DedupeStore.Live` | services/rust-bridge/src/app_state.rs:178-318 | after every sequence of reserves, completions, releases, failing writes and restarts the queues are consistent and bounded, the file can be read, and unless a write is outstanding a restart would find every pending operation |
| `DedupeStore.RestartKeepsPending` | services/rust-bridge/src/app_state.rs:267-318 | restarting from a file in step with memory finds every pending operation |
| `Observer.ValidMeans` | apps/desktop/macos/BridgeStatusObserver.swift:66-136 | each desired profile has exactly one of a live connection and a pending retry for its current target, others neither; delays are 1, 2, 4, 8, 16 or 30; no connection is leaked |
| `Observer.SynchronizeKeeps` | apps/desktop/macos/BridgeStatusObserver.swift:66-85 | synchronising keeps that, leaves unchanged targets alone and starts new and changed ones afresh |
| `Observer.DidCloseKeeps` | apps/desktop/macos/BridgeStatusObserver.swift:120-136 | a closed connection of a wanted target is replaced by a retry |
| `Observer.RetryKeeps` | apps/desktop/macos/BridgeStatusObserver.swift:130-135 | a retry that fires is replaced by a connection or the next retry |
| `StatusObserver.BridgeStatusObserver.SynchronizeTargets` | apps/desktop/macos/BridgeStatusObserver.swift:66-85 | the three loops compute the specified state, whatever the dictionary order |
| `StatusObserver.BridgeStatusObserver.StopAll` | apps/desktop/macos/BridgeStatusObserver.swift:87-98 | everything is cancelled and forgotten |
| `StatusObserver.BridgeStatusObserver.ConnectTarget` | apps/desktop/macos/BridgeStatusObserver.swift:100-118 | the state is the specified one |
| `StatusObserver.BridgeStatusObserver.ConnectionDidClose` | apps/desktop/macos/BridgeStatusObserver.swift:120-136 | the state is the specified one |
| `StatusObserver.BridgeStatusObserver.HealthArrived` | apps/desktop/macos/BridgeStatusObserver.swift:104-108 | a report resets the failure count |
| `StatusObserver.BridgeStatusObserver.RetryWakes` | apps/desktop/macos/BridgeStatusObserver.swift:130-135 | the state is the specified one |
| `StatusObserver.Drive` | apps/desktop/macos/BridgeStatusObserver.swift:66-136 | the object, driven through any sequence of happenings, is in the specified state |
| `StatusObserver.AlwaysValid` | apps/desktop/macos/BridgeStatusObserver.swift:66-136 | after every sequence of synchronisations, stops, reports, closings and retries the observer is valid |
| `StatusObserver.OneLinkEach` | apps/desktop/macos/BridgeStatusObserver.swift:66-136 | in every run, one link for each desired profile and none for the others |
| `ObserverBackoff.RecordedIsInARow` | apps/desktop/macos/BridgeStatusObserver.swift:100-126 | in every run the failures recorded for a profile are those in a row since the last report and since its target was given, counted up to six |
| `ObserverBackoff.RetryDelay` | apps/desktop/macos/BridgeStatusObserver.swift:120-136 | a retry waits 1 second after one failure in a row, then 2, 4, 8, 16, and 30 seconds from the sixth on |

## Left out

- AgUiProjector.Projector.ProjectCanonical: does not emit the tool-meta, tool-content and token-usage custom events, and treats plan, usage, mode, configuration and command notifications as one event without a body, because no other part of the state depends on them.
- AgUiStream.StreamAcceptedIff: the trace carries one `Classified` mark that is not sent to clients; it records when a tool becomes a card, so that the client can be asked to stop feeding its row.
- Text classifiers (task headers, task titles, terminal and failed status names, previews), the JSON codec and the iteration order of hash maps are parameters; every theorem holds for all of them, with decoding undoing encoding.  SHA-256 revisions are injective by construction.
- Text is a sequence of Unicode scalars; `Utf8` connects its sizes and cuts to the bytes.
- Timestamps, source turn ids on envelopes and the wording of activity cards.
- Snapshot.TrimSnapshot: takes the timeline as a list of entries; how message text, tool text and cards are rendered is not part of this model.
- WorkerPoolSafety.FailuresAreInARow: failure counts are unbounded integers, where the source saturates at 32 bits.
- The pool holds the sweep lock while a shutdown stops the drained workers; the model drains and lets go at once, which only adds interleavings.
- Launching, probing and stopping a worker are steps with an arbitrary outcome, and sessions are told apart by profile only, as releasing does.
- Calendar.CivilIsRight: does not model 64-bit overflow of the day count, which is out of reach of any clock.
- Setup.ConfigFile.SetupProfile: takes the normalised host and the outcome of the port probes as inputs; manifests, secrets, file leases and the rollback of side effects are not part of this model.
- TokenIndex.AuthenticateIff: trimming, byte length and the token digest are parameters, and a digest collision counts as a shared credential; reloading the cache when the file changes is not modelled.
- Dedupe.Compact: the encoded size is an arbitrary function of the state, and the file is the state that was written; files that do not parse, are oversized or list a pending key twice, none of which the program writes, are not modelled.
- Pending thread creations are a set in the source and carry an empty payload here.
- Observer.SynchronizeKeeps: assumes, as the source arranges, that callbacks do not re-enter and that cancelled connections and retries stay silent; time passes only as an arbitrary order of events.
- HTTP and WebSocket proxying, process supervision, client replay, the queue service, keychain access, pairing and the user interfaces.
