# Tern: a verified model of its event, turn, gateway and artifact logic

Tern is a server that runs coding agents and streams their events. This project models the parts of it
in which correctness spans several functions or a whole run, and proves what they keep.

| files | what they model |
|---|---|
| `Events`, `Wrappers`, `Strings`, `Seqs`, `Decimal` | stream events, token usage, options and results, sequences, printed ids |
| `Chunking`, `SseChunk`, `ChunkAgreement` | splitting large tool results for the wire, and the two ways of assembling them again |
| `Heartbeat`, `RelayProtocol`, `RelayWakeups`, `RelayDrain`, `Ingest` | the relay: its pump, its readers and their channels as a step system, the history made of it |
| `Terminal`, `Attach`, `Verdict`, `Follow`, `ClientStream`, `Resume` | a subscriber's stream, the client that reads it, and resuming after a cut |
| `Subscriber` | the stealable subscriber of a turn and its reattach timer |
| `TurnLoop`, `TurnAttempt`, `TurnIDs`, `TurnStream`, `TurnSession`, `TurnEnds` | the attempt loop of a turn, the connection a turn is started on as the client reads it, the follows after it, and how both end |
| `WbsTree`, `WbsGraph`, `WbsOrchestrator` | the plan scheduler |
| `Router` | the session table of the model router |
| `StreamRetry`, `MessageStream`, `BifrostClient`, `GatewayCalls`, `GatewayMeaning`, `GatewayBrackets`, `Convert` | the gateway: its retry budget, its two stream handlers, the client's parser, block conversion |
| `Usage`, `UsageRuns` | token accounting of a turn and a session |
| `Artifacts`, `ArtifactRuns`, `ArtifactEvents`, `Reconcile` | file events: claims, deferred shell operations, the flush, the priority merge |
| `Base62` | the text of a byte string in key ring names |

Code that changes things step by step is a class or a method with loops, proved against a function of
the old state; the lemmas are about those functions. Locks are atomic sections, so a run is any sequence
of calls or steps. Strings are byte sequences. JSON is a value carrier with a length function; decoding
tool input, path resolution, the shell parser, the clock and the choices of `select` are parameters.

The main results, each for all inputs or all runs:

* **Exactly-once resume.** A client reads the connection that started the turn and then follows, any number
  of times, while the buffer grows or after it is complete. Whatever the server's select picks and
  wherever each connection is cut, the events it was given with an id are the log's events without
  retryable errors, in order, once each, tool results whole (`TurnSession.ExactlyOnceFromTheStart`,
  `Resume.ExactlyOnceAcrossCuts`). Its exceptions are stated exactly: the error that is written when the
  attempts have run out, and a relaunch after an attempt that wrote under an id.
* **Relay readers.** In every interleaving a reader delivers a prefix; it is exactly known when a waiting
  reader has lost its wakeup (`RelayWakeups.WakeupLostExactly`); after the close nobody stays in the wait,
  and a reader can end exactly when its consumer still listens or what it has left fits its channel
  (`RelayDrain.BlockedExactly`, `RelayDrain.EndsExactly`).
* **Relaunch is decided exactly** by what the attempt's relay holds (`TurnLoop.TriesAgainExactly`,
  `TurnLoop.RunTurn`), and so is what the turn ends with and whether its stream carries a completion
  mark (`TurnLoop.EndMeans`, `TurnEnds.MarkedExactly`).
* **The scheduler** starts a node once and only after its dependencies, and a fresh plan finishes exactly
  when its dependencies exist and have no cycle; every other result has its exact cause in the executor's
  last answer, the context and the statuses (`WbsOrchestrator.Orchestrator.Execute`).
* **The gateway preserves meaning.** What the client parses is the meaning of the one upstream stream that
  served the request, over every pattern of failures (`GatewayMeaning.GatewayDelivers`).
* **Usage does not depend on interleaving** (`UsageRuns.InterleavingDoesNotMatter`).
* **Claims and merge.** A flushed turn has exactly one structured event a file
  (`ArtifactRuns.FlushCompletesTheTurn`); the merge is by priority whatever the order
  (`Reconcile.OrderDoesNotMatter`).

Where the code does not keep what one would expect, the model keeps the code, gives an input or a run at
which it fails, and states the exact condition:

* When the last attempt ends in a retryable error the server writes an error without an id, and the client
  gives it under the id of the last event it read. On the turn's own connection ids are given once
  exactly when no event without an id has arrived after one with an id
  (`TurnSession.ErrorUnderTheTextsID`, `TurnStream.IDsGivenOnceExactly`, `TurnStream.OneAttemptExactly`).
* A relaunched attempt numbers its events from zero again. A caller that was given an id by an attempt
  before it does not stand at any index of some next relay (`TurnSession.RelaunchLosesThePlace`); if no
  earlier attempt wrote under an id it always stands at one (`TurnSession.ExactlyOnceFromTheStart`).
* A follower that resumes past a terminal event is told the outcome again, under an id one past the buffer
  (`Resume.ResultToldTwice`, `Resume.SyntheticExactly`).
* With two readers on one relay a wakeup can be lost: exactly when another reader took the last token
  (`RelayWakeups.TwoReadersCanLoseAWakeup`, `RelayWakeups.WakeupLostExactly`).
* A reader whose consumer has left with more to read than its channel holds stays blocked for ever
  (`RelayDrain.AbandonedReaderLeaks`, `RelayDrain.EndsExactly`).
* A reattach timer that has gone off cannot be stopped any more. Its callback closes the execution under a
  subscriber exactly when one is recorded at that moment, which it does not ask
  (`Subscriber.LateCallbackClosesServed`, `Subscriber.CallbackClosesServedExactly`).
* `from` equal to the largest int wraps to a negative start (`Follow.LargestFromWraps`,
  `Follow.AcceptedStartInBuffer`), at which the reader panics (`Resume.HandleFollow`).
* The doubled delay wraps around, and so does the cap. A delay is the capped doubling exactly when it is
  below the true cap and not past the wrapped one, or past a cap that fits and wrapped to a value not
  below it, or wrapped to the true cap itself (`StreamRetry.BackoffExactly`, `StreamRetry.CapWraps`,
  `StreamRetry.OverflowHiddenByTheCap`).
* A text item that ends without a delta is written as a block stop without a start
  (`GatewayBrackets.EmptyTextUnbracketed`, `GatewayBrackets.BracketedExactly`).
* Of two function calls that overlap upstream only the later one reaches the client, and arguments that
  come after the end of a text are lost. Calls arrive whole exactly when none is added while another is
  open, none is left open and no argument text comes after a call was closed
  (`GatewayCalls.FirstOfTwoIsLost`, `GatewayCalls.LateArgumentsAreLost`, `GatewayCalls.CallsSurviveExactly`).
* A Write family event is recorded once exactly when the paths that the live analysis and the flush read
  from it have one key (`ArtifactRuns.WriteRecordedTwice`, `ArtifactRuns.RecordedOnceExactly`).
* A gateway call without an id is lost exactly when the id made up for it had been given to another call
  (`Usage.BlankCallLost`, `Usage.BlankCallKeptExactly`).
* The client's assembler refuses indices outside the range and chunks without an id, which the server's
  reassembly lets pass (`ChunkAgreement.StrayPartIgnored`, `ChunkAgreement.AgreesExactly`).

## Model

| member | source | states |
|---|---|---|
| `Chunking.BuildChunkedToolResult` | shared/libs/go/codingagent/sse_chunk.go:50-93 | succeeds exactly when every part and the final event are under the limit, and then returns the numbered slices and the final event |
| `Chunking.SplitStreamEventForSSE` | shared/libs/go/codingagent/sse_chunk.go:20-48 | the halving search computes `Split`, whose properties are the next four rows |
| `Chunking.PieceIsSlice` | shared/libs/go/codingagent/sse_chunk.go:54-72 | the pieces defined by cutting from the front are the byte ranges the loop slices, and there are as many as it counts |
| `Chunking.JoinPieces` | shared/libs/go/codingagent/sse_chunk.go:54-72 | joining the pieces of any content gives the content back |
| `Chunking.SplitPayloadsUnderLimit` | shared/libs/go/codingagent/sse_chunk.go:20-48 | every payload of a successful split of a tool result is strictly under the limit |
| `Chunking.SplitFailsExactly` | shared/libs/go/codingagent/sse_chunk.go:20-48 | splitting fails if and only if a large tool result fits with none of the four sizes tried |
| `SseChunk.Assembler.AddPart` | client/internal/ssechunk/assembler.go:30-48 | the table and the error after one part, rejected parts leaving the table alone |
| `SseChunk.RefusedExactly` | client/internal/ssechunk/assembler.go:30-48 | which parts are refused, and with which error |
| `SseChunk.Assembler.Complete` | client/internal/ssechunk/assembler.go:50-69 | the content or the error, and the chunk is forgotten exactly on success |
| `SseChunk.Assembler.FlushIncomplete` | client/internal/ssechunk/assembler.go:71-76 | reports an error if and only if some chunk is still pending |
| `SseChunk.CompletedExactly` | client/internal/ssechunk/assembler.go:50-69 | completing succeeds if and only if the indices held are exactly 0 to total - 1, and returns the contents in index order |
| `SseChunk.CompletionFailsExactly` | client/internal/ssechunk/assembler.go:50-69 | which completions fail, and with which error; a gap reported is the first |
| `SseChunk.AnyOrderRoundTrip` | client/internal/ssechunk/assembler.go:30-69 | the parts of any content added in any order, among parts of other chunks, complete to the content |
| `SseChunk.ReassembleToolResultParts` | shared/libs/go/codingagent/sse_chunk.go:95-126 | the server's reassembly: the first fault, the first gap, or the contents in order |
| `SseChunk.FirstFault` | shared/libs/go/codingagent/sse_chunk.go:101-116 | the fault reported is that of the first faulty event, and which |
| `ChunkAgreement.AcceptedExactly` | client/internal/ssechunk/assembler.go:30-48 | the assembler accepts all part events of a chunk if and only if reassembly finds no fault, and then holds what it collects |
| `ChunkAgreement.AgreesExactly` | client/internal/ssechunk/assembler.go:30-69 | for every list of events: all are accepted and the chunk completes if and only if reassembly succeeds, the chunk has an id and every index is in range; the contents then agree |
| `ChunkAgreement.StrayPartIgnored` | shared/libs/go/codingagent/sse_chunk.go:95-126 | a list with a part past the total, which reassembly ignores and the assembler refuses |
| `Follow.FollowResumesAfter` | shared/libs/go/agentservice/handler_follow.go:13-30 | the printed id of a buffered event resumes at the next one |
| `Follow.FollowRefusesPastBuffer` | shared/libs/go/agentservice/handler_follow.go:25-28 | an id at or past the end of the buffer is refused |
| `Follow.AcceptedStartInBuffer` | shared/libs/go/agentservice/handler_follow.go:13-30 | an accepted start lies in the buffer if and only if the value is not the largest int |
| `Follow.LargestFromWraps` | shared/libs/go/agentservice/handler_follow.go:25-28 | the largest int is accepted with a negative start |
| `Terminal.ResolveTerminalFromRelayEvents` | shared/libs/go/agentservice/handler_retry.go:34-53 | the outcome by priority, wherever the events stand: a result, else the last final error, else the last retryable error, else a fixed error |
| `Verdict.ClosedVerdict` | shared/libs/go/agentservice/handler_retry.go:55-76 | the ensured terminal of a stream read to its end is retryable if and only if the whole relay holds a retryable error and no terminal |
| `Verdict.TermAfterSeen` | shared/libs/go/agentservice/handler_retry.go:619-660 | what the loop's terminal says about the events it has seen |
| `Verdict.SelectsEnd` | shared/libs/go/agentservice/handler_retry.go:696-746 | for every sequence of select choices, how the loop can have ended and with which flags |
| `Attach.ResponseWriter.WriteSSEWireEventsID` | shared/libs/go/agentservice/handler.go:508-522 | every wire part of an event carries the same id line; a failed split writes nothing |
| `Attach.ResponseWriter.WriteLoggedEvent` | shared/libs/go/agentservice/handler_retry.go:619-660 | a retryable error takes an id and is not written, any other event is written or detaches the subscriber |
| `Attach.ResponseWriter.WriteSyntheticTerminal` | shared/libs/go/agentservice/handler_retry.go:662-694 | a terminal not yet written is written once under the next id, a retryable one never |
| `Attach.ResponseWriter.AttachSSE` | shared/libs/go/agentservice/handler_retry.go:548-746 | the lines and the outcome for any sequence of select choices |
| `ClientStream.Stream.Events` | client/v1/stream.go:261-380 | the events emitted, the last id adopted and the error that ends a stream, for any lines |
| `ClientStream.FinishExactly` | client/v1/stream.go:367-379 | nothing is added at the end of a stream if and only if it failed before, or a completion mark was read and neither parts nor a read error are left; else one error, and which |
| `ClientStream.FailsExactly` | client/v1/stream.go:305-333 | when a stream fails before its end: on a part that is refused or a chunk that cannot be completed, with one error without an id |
| `ClientStream.TurnIDIsTheFirst` | client/v1/stream.go:346-348 | the turn id kept is the first one read, tool results apart |
| `Resume.WholeEvent` | client/v1/stream.go:274-365 | a whole event is emitted once under its id, split or not, its content whole |
| `Resume.CutEvent` | client/v1/stream.go:274-365 | an event cut anywhere, also between its chunks, emits nothing and does not advance the last id |
| `Resume.HandleFollow` | shared/libs/go/agentservice/handler_follow.go:54-69 | a refused start writes nothing, a negative one crashes; otherwise the attachment's lines, and the completion marker when there is an outcome |
| `Resume.ConnectionDelivers` | shared/libs/go/agentservice/handler_retry.go:583-746 | one cut connection gives a stretch of the log without retryable errors, whole and in order, and the last id names its end |
| `Resume.ViewShows` | client/v1/stream.go:324-365 | what an event delivered holds, field by field, from the event of the log and the turn |
| `Resume.ConnectionShows` | client/v1/stream.go:324-365 | every event given with an id on a cut connection shows, field by field, one event of the log that is no retryable error, or what the relay came to |
| `Resume.MadeUpShows` | shared/libs/go/agentservice/handler_retry.go:662-694 | the fields of a terminal made up and of the turn context |
| `Resume.ExactlyOnceAcrossCuts` | shared/libs/go/agentservice/handler_retry.go:583-646 | from wherever a caller stands in the log, any number of cut follows of the last id, each at its own buffer length, give the log's prefix exactly once, and the next follow starts where it ends |
| `Resume.UncutConnectionCompletes` | shared/libs/go/agentservice/handler_retry.go:696-746 | a connection read to its end brings the caller to the end of the log |
| `Resume.SyntheticExactly` | shared/libs/go/agentservice/handler_retry.go:662-694 | when a synthetic terminal is sent, if and only if |
| `Resume.ResultToldTwice` | shared/libs/go/agentservice/handler_retry.go:662-694 | the smallest relay whose result is told a second time |
| `RelayProtocol.RunKeepsInv` | shared/libs/go/agentservice/exec_registry.go:155-174 | the invariant of pump, readers and their bounded channels in every interleaving |
| `RelayProtocol.ReadersDeliverPrefix` | shared/libs/go/agentservice/exec_registry.go:243-272 | what a reader sent is a prefix from its start and what its consumer got a prefix of that; all of it when it ended on the done flag; nothing past the first user input request when it stops there |
| `RelayWakeups.WakeupLostExactly` | shared/libs/go/agentservice/exec_registry.go:155-174 | for any number of readers in every run: a reader that waits on unread events has no wakeup on its way if and only if the pump has not just appended and another reader took the last token |
| `RelayWakeups.LoneReaderIsWoken` | shared/libs/go/agentservice/exec_registry.go:155-174 | so a single waiting reader with unread events always has one |
| `RelayWakeups.TwoReadersCanLoseAWakeup` | shared/libs/go/agentservice/exec_registry.go:243-272 | a run in which one of two readers waits on an unread event without a wakeup |
| `RelayDrain.BlockedExactly` | shared/libs/go/agentservice/exec_registry.go:243-272 | in every run once the done channel is closed a reader cannot move if and only if it has ended or holds an event for a full channel; nobody stays in the wait |
| `RelayDrain.MoveLeaves` | shared/libs/go/agentservice/exec_registry.go:247-260 | every step after the close sends one event or leaves as many to send, and the reader's own steps are bounded |
| `RelayDrain.EndsExactly` | shared/libs/go/agentservice/exec_registry.go:243-272 | after the close a reader has a continuation in which it ends if and only if its consumer listens or what it has left fits its channel |
| `RelayDrain.FittingReaderRunsOut` | shared/libs/go/agentservice/exec_registry.go:243-272 | a reader whose events fit never blocks again, whatever the others do, and runs out of steps |
| `RelayDrain.AbandonedReaderLeaks` | shared/libs/go/agentservice/handler_retry.go:696-722 | a run whose reader never ends: nine events and a consumer that has gone |
| `Heartbeat.EventRelay.Pump` | shared/libs/go/agentservice/exec_registry.go:176-239 | the buffer after any interleaving of source events and ticks |
| `Heartbeat.HeartbeatsAreTransparent` | shared/libs/go/agentservice/exec_registry.go:176-239 | erasing heartbeats gives the consumed source; the ticker runs if and only if a tool is open and the interval is positive |
| `Heartbeat.HeartbeatsNameAnOpenTool` | shared/libs/go/agentservice/exec_registry.go:226-236 | a heartbeat appears only while a tool is open; its kind, its content, the name of the last tool opened, and no other field |
| `Heartbeat.BeatsExactly` | shared/libs/go/agentservice/exec_registry.go:176-239 | a tick appends one heartbeat if and only if the interval is positive and a tool is open |
| `Ingest.EventsToMessages` | shared/libs/go/agentservice/ingest.go:13-67 | the loop computes `Messages`, whose properties are the next four rows |
| `Ingest.HistoryIsFaithful` | shared/libs/go/agentservice/ingest.go:13-67 | the messages record exactly what the events told, in order: every byte of text, every call with its input, every tool result |
| `Ingest.OneMessageOfText` | shared/libs/go/agentservice/ingest.go:13-67 | up to a call, a tool result, the turn's result or an unknown event all text is one message of the assistant with the origin |
| `Ingest.EndSeparates` | shared/libs/go/agentservice/ingest.go:13-67 | such an event separates the history before from that after it, with its own message between them |
| `Ingest.HeartbeatsChangeNothing` | shared/libs/go/agentservice/ingest.go:13-67 | history and outcome are the same with and without the injected heartbeats |
| `Subscriber.ActiveExecution.StealSubscriber` | shared/libs/go/agentservice/exec_registry.go:98-112 | the timer is stopped, the recorded subscriber cancelled, and the next generation recorded |
| `Subscriber.ActiveExecution.ClearSubscriber` | shared/libs/go/agentservice/exec_registry.go:114-122 | only the current generation is cleared |
| `Subscriber.ActiveExecution.StopReattachTimer` | shared/libs/go/agentservice/exec_registry.go:86-96 | a recorded timer is stopped and forgotten |
| `Subscriber.ActiveExecution.ArmReattachTimer` | shared/libs/go/agentservice/handler_retry.go:499-516 | a timer is started if and only if there is no subscriber, no timer and no suspension |
| `Subscriber.ActiveExecution.Detach` | shared/libs/go/agentservice/handler_retry.go:553-558 | a leaving subscriber arms the timer only when it was the current one |
| `Subscriber.OneSubscriberAtATime` | shared/libs/go/agentservice/exec_registry.go:86-128 | in every run: a timer excludes a subscriber, no timer runs unrecorded, exactly the superseded subscribers are cancelled, generations increase |
| `Subscriber.StaleLeaveChangesNothing` | shared/libs/go/agentservice/exec_registry.go:114-122 | a superseded subscriber leaves without a trace |
| `Subscriber.CallbackClosesServedExactly` | shared/libs/go/agentservice/handler_retry.go:134-160 | in every run the callback of a timer closes the execution under a subscriber if and only if one is recorded at that moment |
| `Subscriber.RecordedTimerFindsNobody` | shared/libs/go/agentservice/handler_retry.go:134-160 | the timer still recorded never does |
| `Subscriber.LateCallbackClosesServed` | shared/libs/go/agentservice/handler_retry.go:134-160 | a run in which a timer that went off before a steal closes the execution under the new subscriber |
| `Subscriber.LeavingArmsTheTimer` | shared/libs/go/agentservice/handler_retry.go:553-558 | after the current subscriber leaves, exactly one timer runs, none if suspended |
| `TurnLoop.TriesAgainExactly` | shared/libs/go/agentservice/handler_retry.go:219-374 | an attempt is tried again if and only if its subscriber stayed and its relay holds a retryable error, no result, no final error and no user input request |
| `TurnLoop.RunAttempt` | shared/libs/go/agentservice/handler_retry.go:219-376 | one attempt: the lines of its attachment and those runTurn adds itself, and whether the turn ends and how |
| `TurnLoop.LimitExactly` | shared/libs/go/agentservice/handler_retry.go:78-90 | how many attempts a turn is given |
| `TurnLoop.RunTurn` | shared/libs/go/agentservice/handler_retry.go:196-377 | launches stay within the limit; every launch before the last was due a retry and the last was not, or the limit was reached; how the turn ended, and all lines of its connection |
| `TurnLoop.EndMeans` | shared/libs/go/agentservice/handler_retry.go:333-376 | what the end of a turn is, from the relay's last result or error, the subscriber, the session and the limit |
| `TurnEnds.MarkedExactly` | shared/libs/go/agentservice/handler_retry.go:248-376 | a client that reads the whole of a turn's connection is told that it is complete if and only if the last attempt was not a first launch or a send that failed, nor lost its subscriber to a session found suspended |
| `TurnEnds.OwnErrorSays` | shared/libs/go/agentservice/handler_retry.go:264-367 | what an error of runTurn's own says |
| `TurnEnds.FollowMarkedExactly` | shared/libs/go/agentservice/handler_follow.go:54-69 | the same of a follow: if and only if the relay was read to its end, the turn asked for user input, or a result or an error was among the events taken |
| `TurnStream.TurnDelivers` | shared/libs/go/agentservice/handler_retry.go:333-376 | for all attempts and any cut of the turn's own connection: what the earlier attempts gave in full, then a prefix of the relay of the attempt that was cut, and at most a terminal made up or an error of runTurn's own |
| `TurnStream.IDsGivenOnceExactly` | shared/libs/go/agentservice/handler_retry.go:364-374 | for all attempts, any limit and any cut: no id is given twice if and only if no line with an event without an id has arrived after an event with one; the events with an id are then those of one relay |
| `TurnStream.OneAttemptExactly` | shared/libs/go/agentservice/handler_retry.go:364-374 | with one attempt: if and only if its terminal was not retryable with no attempt left, or nothing was written under an id, or the cut came before the error |
| `TurnSession.ErrorUnderTheTextsID` | shared/libs/go/agentservice/handler_retry.go:410-418 | the smallest case: after one text and a retryable error the error is given under the id of the text |
| `TurnSession.ExactlyOnceFromTheStart` | client/v1/stream.go:268-365 | the turn's own connection cut anywhere and any number of cut follows after it: exactly once, but for runTurn's own error, which is given under the last id if and only if it arrives after an event with one |
| `TurnSession.RelaunchLosesThePlace` | shared/libs/go/agentservice/handler_retry.go:326-331 | if an attempt wrote under an id and was tried again, some relay of the next attempt and a cut between the two leave the caller at no index of it |
| `WbsTree.WBSTree.NextExecutableNodes` | shared/libs/go/wayfinder/planning/wbs_tree.go:30-50 | the pending nodes whose dependencies are completed, in walk order |
| `WbsTree.WBSTree.IsComplete` | shared/libs/go/wayfinder/planning/wbs_tree.go:52-61 | true if and only if every node is completed |
| `WbsTree.WBSTree.IsDeadlocked` | shared/libs/go/wayfinder/planning/wbs_tree.go:74-82 | true if and only if some node is pending and none is executable |
| `WbsTree.WBSTree.UpdateNodeStatus` | shared/libs/go/wayfinder/planning/wbs_tree.go:85-95 | the walk after the update, every other node unchanged |
| `WbsTree.WBSTree.Progress` | shared/libs/go/wayfinder/planning/wbs_tree.go:98-108 | the number of completed nodes and of nodes |
| `WbsGraph.DependencyFirst` | shared/libs/go/wayfinder/planning/wbs_orchestrator.go:86-134 | in a safe trace of a fresh plan a dependency completes before its dependent |
| `WbsGraph.CompletedRunIsAcyclic` | shared/libs/go/wayfinder/planning/wbs_orchestrator.go:71-136 | a plan all of whose nodes completed has no missing dependency and no cycle |
| `WbsGraph.DeadlockHasCause` | shared/libs/go/wayfinder/planning/wbs_tree.go:74-82 | a deadlock of pending and completed nodes means a missing dependency or a cycle |
| `WbsOrchestrator.CompletedStaysCompleted` | shared/libs/go/wayfinder/planning/wbs_orchestrator.go:86-134 | no later event of a safe trace touches a completed node |
| `WbsOrchestrator.UpdateLowersPending` | shared/libs/go/wayfinder/planning/wbs_tree.go:85-95 | starting a pending node lowers the pending count |
| `WbsOrchestrator.Orchestrator.RunNode` | shared/libs/go/wayfinder/planning/wbs_orchestrator.go:97-129 | one node's events and the tree after it, for every executor outcome |
| `WbsOrchestrator.Orchestrator.RunNext` | shared/libs/go/wayfinder/planning/wbs_orchestrator.go:91-134 | one pass of the inner loop: why the round stops, if it does, and events, tree and calls after it |
| `WbsOrchestrator.Orchestrator.RunRound` | shared/libs/go/wayfinder/planning/wbs_orchestrator.go:91-134 | a round that goes on has completed every node and lowered the pending count; one that stops was cancelled with a node still executable, or its last executor call suspended or failed and some node has that status |
| `WbsOrchestrator.Orchestrator.Execute` | shared/libs/go/wayfinder/planning/wbs_orchestrator.go:71-136 | for every executor: nodes start once, after their dependencies; closing events, results, untouched nodes and progress counts are those of the executor's answers; of a fresh plan with unique ids the final statuses determine the result, finishing and deadlock mean that the dependencies are and are not in order, suspension and failure are the last answer's, cancellation the context's |
| `Router.ModelRouter.ResolveModel` | shared/libs/go/llmgateway/routing.go:54-174 | the table and the answer of one call |
| `Router.ModelRouter.EvictOldest` | shared/libs/go/llmgateway/routing.go:176-186 | the head of the list leaves both the list and the table |
| `Router.ModelRouter.RemoveFromAccessOrder` | shared/libs/go/llmgateway/routing.go:193-200 | the list without the first occurrence |
| `Router.CallKeepsValid` | shared/libs/go/llmgateway/routing.go:54-174 | every call keeps the list a duplicate-free listing of the table sorted by last use, within the limit |
| `Router.HistoryValid` | shared/libs/go/llmgateway/routing.go:54-200 | so does every run |
| `Router.EvictionTakesLeastRecent` | shared/libs/go/llmgateway/routing.go:176-186 | the session evicted was used no later than any other |
| `Router.StickyModel` | shared/libs/go/llmgateway/routing.go:54-174 | a session in the table has kept the model of the call that put it there |
| `Router.FallbackIsFirstResolved` | shared/libs/go/llmgateway/routing.go:144-172 | a fallback returns the model first resolved since the session last entered the table |
| `Router.AnsweredExactly` | shared/libs/go/llmgateway/routing.go:54-174 | over every history: a call that resolves is answered with its own model, and another one if and only if its session is in the table and the last call that named it is no more than a positive time to live ago |
| `Router.LeavesExactly` | shared/libs/go/llmgateway/routing.go:103-172 | over every history: when a session leaves the table, by expiry or by eviction, if and only if |
| `StreamRetry.RetryBackoff` | shared/libs/go/llmgateway/stream_retry.go:39-55 | the delay of an attempt with 64-bit wrap-around |
| `StreamRetry.DefaultsExactly` | shared/libs/go/llmgateway/stream_retry.go:25-37 | the settings a budget works with, one by one |
| `StreamRetry.DefaultDelays` | shared/libs/go/llmgateway/stream_retry.go:25-55 | with nothing set the delays are one, two, four and then eight seconds |
| `StreamRetry.BackoffExactly` | shared/libs/go/llmgateway/stream_retry.go:39-55 | for all settings with a delay and every attempt: the delay is the doubling capped without overflow if and only if it is below the true cap and not past the wrapped one, or past it with a cap that fits and a product that wraps to no less, or a product that wraps to the true cap itself |
| `StreamRetry.CapFitsExactly` | shared/libs/go/llmgateway/stream_retry.go:39-55 | for a cap not below zero: the code's cap is the true one if and only if it fits an int |
| `StreamRetry.BackoffFitsUpTo` | shared/libs/go/llmgateway/stream_retry.go:39-55 | when the first delay fits: all delays up to an attempt are right if and only if the last product fits an int, or is not past either cap when the cap wrapped |
| `StreamRetry.CapWraps` | shared/libs/go/llmgateway/stream_retry.go:39-55 | a cap of 18446744074 seconds, with which a first delay of one second is cut to 290448384 ns |
| `StreamRetry.OverflowHiddenByTheCap` | shared/libs/go/llmgateway/stream_retry.go:39-55 | a first delay that does not fit and passes unnoticed |
| `StreamRetry.BackoffWraps` | shared/libs/go/llmgateway/stream_retry.go:39-55 | the first product that does not fit is negative |
| `StreamRetry.RetryBudget.OpenWithBudget` | shared/libs/go/llmgateway/stream_retry.go:110-146 | opens until one succeeds or may not be retried, one delay and one retry each |
| `StreamRetry.RetryBudget.RetryLeadingChunk` | shared/libs/go/llmgateway/stream_retry.go:158-181 | retries if and only if the error is retryable, nothing was written, the budget allows it and the wait is not cut short |
| `StreamRetry.OneBudget` | shared/libs/go/llmgateway/stream_retry.go:14-23 | over every pattern of failures opens stay within one plus the retries, and a stream given up for another had delivered nothing |
| `StreamRetry.ServedOneWay` | shared/libs/go/llmgateway/stream_retry.go:110-181 | the pattern of failures determines how the request is served |
| `StreamRetry.RetriedExactly` | shared/libs/go/llmgateway/stream_retry.go:110-181 | when an open is given another, from what the upstream and the context do |
| `StreamRetry.ServedMeans` | shared/libs/go/llmgateway/stream_retry.go:110-181 | what each way of being served means: every open before the last was given another, and how the last one ended |
| `StreamRetry.HandleResponsesStream` | shared/libs/go/llmgateway/openai/handler.go:319-391 | the request is served as the budget says and all data written comes from that one stream |
| `MessageStream.TranslateChunks` | shared/libs/go/llmgateway/anthropic/handler.go:404-519 | the translation of one stream up to its first error chunk |
| `MessageStream.HandleMessagesStream` | shared/libs/go/llmgateway/anthropic/handler.go:341-546 | the whole answer: a bad gateway, a complete translation of one stream, or one that broke off |
| `MessageStream.AnswerEnds` | shared/libs/go/llmgateway/anthropic/handler.go:341-546 | a bad gateway if and only if no stream was opened; else one start, events of blocks, and usage and stop if the stream ended, an error and no stop if it did not |
| `BifrostClient.ParseSSEStream` | shared/libs/go/wayfinder/bifrost_client.go:253-361 | the response is that of the data lines before the end mark, and the deltas reported join to its content |
| `GatewayCalls.CallsRead` | shared/libs/go/wayfinder/bifrost_client.go:253-361 | for every upstream sequence the client reads exactly the calls that were closed, each with the arguments since it was added |
| `GatewayCalls.TextsSurviveExactly` | shared/libs/go/llmgateway/anthropic/handler.go:438-511 | for every upstream sequence the calls closed are the calls sent, with id, name and all argument text, if and only if none is added while another is open, none is left open and no argument text comes after a call was closed |
| `GatewayCalls.CallsSurviveExactly` | shared/libs/go/wayfinder/bifrost_client.go:253-361 | the same of the calls the client decodes; the condition suffices for any decoder and is needed for one that tells texts apart, its first two parts for any |
| `GatewayCalls.LateArgumentsAreLost` | shared/libs/go/llmgateway/anthropic/handler.go:438-511 | a call closed by the end of a text arrives without the arguments sent after it |
| `GatewayCalls.FirstOfTwoIsLost` | shared/libs/go/llmgateway/anthropic/handler.go:438-511 | of two overlapping calls only the second arrives |
| `GatewayMeaning.TextAndReasonSurvive` | shared/libs/go/llmgateway/anthropic/handler.go:396-539 | for every upstream sequence all text arrives in order, the calls are the closed ones and the stop reason tells whether a call was mentioned; a broken stream has text and calls up to there and an empty one |
| `GatewayMeaning.TokensAreTheLastReported` | shared/libs/go/llmgateway/anthropic/handler.go:513-534 | the output tokens told at the end are those of the last completion that reported usage |
| `GatewayMeaning.FlattenWritten` | shared/libs/go/llmgateway/anthropic/handler.go:438-511 | a well-formed sequence is written as one block after another, numbered from zero |
| `GatewayMeaning.TranslationPreservesMeaning` | shared/libs/go/wayfinder/bifrost_client.go:253-361 | the client recovers text, tool calls in order with id, name and decoded joined arguments, and the stop reason |
| `GatewayBrackets.BracketedExactly` | shared/libs/go/llmgateway/anthropic/handler.go:438-511 | blocks are bracketed with indices 0, 1, 2, ... if and only if every text item has a delta |
| `GatewayBrackets.EmptyTextUnbracketed` | shared/libs/go/llmgateway/anthropic/handler.go:438-470 | a text item done without a delta is not bracketed |
| `GatewayMeaning.GatewayDelivers` | shared/libs/go/llmgateway/anthropic/handler.go:341-546 | end to end over every pattern of failures, the whole response that the client's parser makes of the answer |
| `Convert.ConvertMessage` | shared/libs/go/llmgateway/anthropic/convert.go:85-227 | the messages made, or the error of the first image block without source or data |
| `Convert.RefusedExactly` | shared/libs/go/llmgateway/anthropic/convert.go:177-205 | which images are refused, and with which error |
| `Convert.TextBecomesOneMessage` | shared/libs/go/llmgateway/anthropic/convert.go:106-227 | a run of text becomes one message of the role with all of it |
| `Convert.BlockSeparates` | shared/libs/go/llmgateway/anthropic/convert.go:106-227 | any other block separates the messages before it from those after it, with its own between: a call, an output under its call id, or an image as a data URL |
| `Convert.ConvertOutput` | shared/libs/go/llmgateway/anthropic/convert.go:311-354 | the blocks of one message, calls before text, missing fields empty |
| `Convert.CallComesBack` | shared/libs/go/llmgateway/anthropic/convert.go:311-330 | the block of a call, missing fields empty |
| `Convert.ConvertFromBifrost` | shared/libs/go/llmgateway/anthropic/convert.go:281-293 | the blocks of all messages in order |
| `Convert.RoundTrip` | shared/libs/go/llmgateway/anthropic/convert.go:106-227 | to messages and back gives text and tool_use blocks with each run of text joined |
| `Convert.JoinedKeepsAll` | shared/libs/go/llmgateway/anthropic/convert.go:106-227 | joining loses no text and no tool call |
| `Convert.JoinedRuns` | shared/libs/go/llmgateway/anthropic/convert.go:106-227 | no two text blocks are adjacent afterwards |
| `Convert.JoinedFixed` | shared/libs/go/llmgateway/anthropic/convert.go:106-227 | a list without adjacent text comes back as it was |
| `Usage.TurnUsageAggregator.Observe` | shared/libs/go/agentservice/usage_aggregator.go:26-61 | a call id is counted once, a trusted result total replaces, a fallback only fills |
| `Usage.TurnUsageAggregator.MergeCalls` | shared/libs/go/agentservice/usage_aggregator.go:63-76 | gateway calls are added under their own or a made-up id unless seen |
| `Usage.TurnUsageAggregator.Finalize` | shared/libs/go/agentservice/usage_aggregator.go:78-124 | the first call fixes the record, every later one returns it |
| `Usage.RecordMeans` | shared/libs/go/agentservice/usage_aggregator.go:86-123 | there is a record if and only if there is a total or a call; it is the total under the turn's id, or every count is the sum over the calls; the mismatch flag is set exactly when input or output differ |
| `Usage.MergedOnce` | shared/libs/go/agentservice/usage_aggregator.go:63-76 | no call id is blank or listed twice after a merge |
| `Usage.BlankCallKeptExactly` | shared/libs/go/agentservice/usage_aggregator.go:63-76 | a gateway call without an id is listed if and only if the id made up for it is none that was given; ids made up in one merge never collide |
| `Usage.BlankCallLost` | shared/libs/go/agentservice/usage_aggregator.go:63-76 | the smallest case in which one is lost |
| `Usage.SumTurnUsage` | shared/libs/go/codingagent/usage.go:105-114 | the loop computes `SumTurns`, which the next row is about |
| `Usage.SumIs` | shared/libs/go/codingagent/usage.go:78-114 | adding up gives for each count the sum of that count, totals only where positive, and a cost if and only if one is present |
| `Usage.UsageFile.AppendTurnUsage` | shared/libs/go/agentservice/usage_store.go:65-101 | the stored report with the turn replaced or added, and its sum |
| `Usage.AppendedSound` | shared/libs/go/agentservice/usage_store.go:73-96 | turn ids stay unique, every count of the session is the sum of that count over the turns, no other turn is touched |
| `Usage.AppendedTwice` | shared/libs/go/agentservice/usage_store.go:73-84 | storing a turn again changes nothing |
| `Usage.AppendedCounts` | shared/libs/go/codingagent/usage.go:82-114 | a turn stored again replaces what it counted before, a new one is added, count by count and in cost |
| `UsageRuns.ApplyUsageSideEffects` | shared/libs/go/agentservice/handler_usage.go:16-67 | aggregator, report and wire event after one event, with the shared calls of the record attributed in place |
| `UsageRuns.ReadersAreGapless` | shared/libs/go/agentservice/handler_retry.go:470-497 | any number of in-order readers that join at the beginning or at a resume point read without a gap |
| `UsageRuns.InterleavingDoesNotMatter` | shared/libs/go/agentservice/handler_usage.go:16-67 | however many readers there are and however they interleave, the record and the report are those of a single pass up to the first end |
| `UsageRuns.CollectedMeans` | shared/libs/go/agentservice/usage_aggregator.go:26-61 | before the end, the calls collected are the first report of each call id in order and the total is the first token count |
| `UsageRuns.EndMeans` | shared/libs/go/agentservice/usage_aggregator.go:39-60 | what a terminal event adds to that: a trusted result total replaces a token count, another one only fills |
| `UsageRuns.NothingStoredBeforeTheEnd` | shared/libs/go/agentservice/handler_usage.go:23-26 | until then nothing is stored and the aggregator is that of a single pass |
| `UsageRuns.WireUsageIsTheRecord` | shared/libs/go/agentservice/handler_usage.go:37-45 | whichever reader comes to a result, and when, it carries the same usage |
| `UsageRuns.AttributionExactly` | shared/libs/go/codingagent/usage_model.go:6-20 | what attributing a model changes, and that a second time it changes nothing |
| `Artifacts.ToolCallAnalyzer.BuildEvent` | shared/libs/go/artifact/analyzer/analyzer.go:280-339 | a structured tool claims a free key, any tool is refused on a claimed one |
| `Artifacts.ToolCallAnalyzer.StashPendingShell` | shared/libs/go/artifact/analyzer/shell_emit.go:62-76 | a batch is kept under its call id, or queued without one |
| `Artifacts.ToolCallAnalyzer.TakePendingShell` | shared/libs/go/artifact/analyzer/shell_emit.go:78-98 | the batch of the call id, or else the head of the queue |
| `Artifacts.ToolCallAnalyzer.OnEntry` | shared/libs/go/artifact/analyzer/analyzer.go:84-278 | claims, pending batches and saved events after one log entry |
| `Artifacts.CollectClaudeTier1OpsFromStream` | shared/libs/go/artifact/analyzer/turn_files.go:21-51 | the path and kind of every Write family event that names a file |
| `Artifacts.ToolCallAnalyzer.FlushTurnFiles` | shared/libs/go/artifact/analyzer/turn_files.go:55-101 | the analyzer after the synthesised event of the collected operations |
| `ArtifactRuns.SeenKeyInjective` | shared/libs/go/artifact/analyzer/analyzer.go:319-321 | ids without a NUL make the joined claim key unambiguous |
| `ArtifactRuns.FirstClaimWins` | shared/libs/go/artifact/analyzer/analyzer.go:280-339 | in every run nothing is saved for a key after a structured event, neither structured nor shell |
| `ArtifactRuns.FlushCompletesTheTurn` | shared/libs/go/artifact/analyzer/turn_files.go:80-101 | whatever was observed live, after the flush every file the Write family touched has exactly one structured event |
| `ArtifactRuns.RecordedOnceExactly` | shared/libs/go/artifact/analyzer/turn_files.go:21-101 | for every run: an event observed live and then flushed leaves one structured event if and only if the live analysis read no path, or one with the key of the path the flush reads |
| `ArtifactRuns.WriteRecordedTwice` | shared/libs/go/artifact/analyzer/turn_files.go:38-44 | a Write with two different paths leaves two |
| `ArtifactRuns.PathsAgreeExactly` | shared/libs/go/artifact/analyzer/turn_files.go:38-44 | when the live analysis and the flush read the same path, if and only if, on the fields of the event |
| `ArtifactRuns.OperationsAgree` | shared/libs/go/artifact/analyzer/turn_files.go:27-37 | the flush records for every Write family tool the operation that the live analysis does |
| `ArtifactRuns.WriteFamilySaves` | shared/libs/go/artifact/analyzer/analyzer.go:280-306 | a Write family event observed live: nothing without a path or on a claimed key, else one event with its ids, key, actual path, tool and literal operation, and the claim |
| `ArtifactRuns.FlushSaves` | shared/libs/go/artifact/analyzer/turn_files.go:80-101 | every event the flush saves is that of one of its operations, field by field, with the operation of its kind |
| `ArtifactEvents.EnteredExactly` | shared/libs/go/artifact/analyzer/analyzer.go:84-278 | what one log entry does, exactly: a tool call records the operations it stands for or waits for its result; a result records what it releases and then its own |
| `ArtifactEvents.FlushedExactly` | shared/libs/go/artifact/analyzer/turn_files.go:55-101 | what the flush does, exactly: the record of its operations |
| `ArtifactRuns.QueueConserves` | shared/libs/go/artifact/analyzer/shell_emit.go:62-98 | batches without a call id are released at most once and in order: released plus waiting is deferred |
| `ArtifactRuns.ReleasedByItsOwnResult` | shared/libs/go/artifact/analyzer/shell_emit.go:62-98 | a result releases exactly the batch last deferred under its call id and not asked for since |
| `Reconcile.MergedWinners` | shared/libs/go/artifact/analyzer/reconcile.go:52-77 | exactly the reported keys have a winner, which no candidate of its key beats |
| `Reconcile.OrderDoesNotMatter` | shared/libs/go/artifact/analyzer/reconcile.go:52-77 | with distinct times the winners do not depend on the order of the input |
| `Reconcile.DueExactly` | shared/libs/go/artifact/analyzer/reconcile.go:79-105 | a key yields an event if and only if it was reported and by no structured or shell event |
| `Reconcile.DueWhenNormalised` | shared/libs/go/artifact/analyzer/reconcile.go:79-105 | with normalised stored keys: if and only if it was reported and has no live event |
| `Reconcile.DueFromInput` | shared/libs/go/artifact/analyzer/reconcile.go:52-105 | the same from the input lists alone: if and only if a change found or an earlier supplement has the key and no live event has it, as stored or normalised |
| `Reconcile.Reconcile` | shared/libs/go/artifact/analyzer/reconcile.go:44-119 | one event for each key that is due, made from its winner, and no other |
| `Reconcile.SupplementSays` | shared/libs/go/artifact/analyzer/reconcile.go:52-119 | every supplement, field by field: made from a change found or an earlier supplement, and of those with its key from one of the first rank and the latest of it |
| `Reconcile.DedupEvents` | shared/libs/go/artifact/analyzer/reconcile.go:141-159 | one event of each group of session, key and operation, a latest one |
| `Reconcile.GroupsExactly` | shared/libs/go/artifact/analyzer/reconcile.go:141-147 | which events are of one group |
| `Base62.ToBase62` | shared/libs/go/vault/keyring_backend.go:25-42 | the text denotes the big-endian number of the bytes, without a leading zero except for zero |
| `Base62.EncodingUnique` | shared/libs/go/vault/keyring_backend.go:25-42 | no other such text denotes it |
| `Base62.EncodingInjective` | shared/libs/go/vault/keyring_backend.go:25-52 | bytes of one length with one text are equal; of different lengths they differ in leading zeros only |

## Left out

- HTTP plumbing, subprocesses, SQLite, the key ring, files, logging, command line programs: I/O, or wrappers over code that is not part of this model.
- Session status and the JSON response path: the relaunch property is for the SSE path; cancelling a turn and overlapping sends on one session are not modelled.
- Resume.ExactlyOnceAcrossCuts: is stated for the follows of one relay, with raw part events excluded from its log; the turn's own connection is `TurnSession.ExactlyOnceFromTheStart`.
- TurnSession.ExactlyOnceFromTheStart: is for turns whose earlier attempts wrote nothing under an id, which `TurnSession.RelaunchLosesThePlace` shows to be needed, and follows the relay of the last attempt.
- Chunking.SplitStreamEventForSSE: bounds the JSON payload, not the line with its prefix; chunks are cut at byte positions, so UTF-8 validity of a single part is not claimed, and a failing JSON encoder is not modelled.
- ClientStream.Stream.Events: does not model the scanner's limit on the length of a line, white space trimmed from ids, or the numbers inside error texts; payloads that do not decode are skipped lines.
- Attach.ResponseWriter.WriteLoggedEvent: takes the usage it puts on a result from the turn, which `UsageRuns.WireUsageIsTheRecord` states, and a write to a connection that has failed is the select choice of a lost client.
- Events: values of tool input are strings, costs are real numbers and token counts are unbounded integers.
- Ingest.EventsToMessages: timestamps of messages are left out, and the origin is taken as normalised.
- Subscriber.CallbackClosesServedExactly: the callback's own check that the execution is still registered, and what closing does to the agent, are left out.
- TurnLoop.RunTurn: the waiting time between attempts, the healing of a stale agent session and the status updates are left out, and so is the plain error text that is written when a later attempt cannot be sent; the tags put on error texts are parameters.
- WbsOrchestrator.Orchestrator.Execute: persisting the tree and the texts of emitted events are left out, and the exact result is for fresh plans; suspended or running nodes of a resumed plan are never picked.
- Router.ModelRouter.ResolveModel: is one atomic step, although the code releases a read lock before it takes the write lock; the profile lookup is a parameter.
- StreamRetry.RetryBudget.OpenWithBudget: which error texts count as transient is a parameter of the upstream's behaviour.
- BifrostClient.ParseSSEStream: does not model the scanner's limit on the length of a line; models the payloads the gateway writes; a decoder of tool input is a parameter, and the error payload is one without a known type.
- GatewayMeaning.TranslationPreservesMeaning: is for items that follow one another; for every sequence there are `GatewayMeaning.TextAndReasonSurvive`, `GatewayCalls.CallsRead` and `GatewayCalls.CallsSurviveExactly`. Argument text before the first call belongs to none and is dropped.
- Usage.UsageFile.AppendTurnUsage: end times of turns and the queries over them are left out, and so is an unreadable file.
- UsageRuns.ApplyUsageSideEffects: is one atomic call, although the code does not lock the aggregator, and a session without a directory is left out.
- Artifacts.ToolCallAnalyzer.OnEntry: saving to the store succeeds; times of events, the regular expressions of the shell parser and diff headers are left out.
- Reconcile.Reconcile: running it again on a turn it has already supplemented emits those supplements again, so no idempotence is claimed; resolving a path for a session is a parameter, and the slash conversion of a path without a key, which changes nothing where the separator is a slash, is not modelled.
- Convert.ConvertMessage: system instructions, tool definitions and stop reasons of complete responses would only add easy members.
- `portable`, `subagent`, `tools`, model profiles, configuration defaults and simple registries: would only add easy members or are library code.
