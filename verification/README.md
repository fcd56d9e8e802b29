# Night24: a verified model of the agent server's core

Night24 runs AI agents. Agent-core, a child process, talks to a model provider, runs tools and emits
numbered events; the server reads those events on one thread, routes them to the run they belong to,
folds them into a stored conversation, appends them to a log per run and streams them to a client,
who may go away and come back with the last number it has seen. This project models that path from
the provider's snapshots to the reconnecting client, and the algorithms beside it: the module
bundler, the task list with its two readers, context compaction, the permission table and the
sub-agent pool. It proves properties of the model for all inputs and all interleavings.

The program's objects that change in place are classes here, and each of their methods is proved
against a function on values; what the program promises is proved about those functions. Concurrent
parts are state machines whose actions are the program's atomic steps, and their theorems hold after
every sequence of enabled actions.

| part | files |
|---|---|
| events and text | `Wrappers`, `Events`, `Text` |
| logs, publishing, delivery to readers | `RunEvents`, `Logs`, `Delivery`, `DeliveryGuarantees` |
| routing of stdout events, child trackers | `RunIds`, `Routes`, `Trackers`, `Router`, `RouterInvariant`, `RouterSteps`, `RouterGuarantees` |
| provider turns and the message codec | `ProviderTurns`, `Conversations`, `Codec`, `WholeMessages` |
| the counter that a run shares with its workers | `SharedCounter`, `SharedRuns` |
| the reply pump | `Pump`, `PumpGuarantees` |
| the agent run | `RunPieces`, `AgentLoop`, `AgentSteps`, `AgentGuarantees`, `RunTrace` |
| a whole run in the stored session | `RunStorage`, `RunOrder`, `RunGuarantees` |
| the task list and its readers | `TaskLists`, `TaskParsers`, `TaskLines`, `TaskRoundTrip`, `TaskReading` |
| smaller machines | `Bundler`, `Compaction`, `Permissions`, `PermissionProtocol`, `SubAgents` |

The pieces meet. The agent loop makes its attempts, runs its tools, keeps its task list and sends all of
that through the run's counter, its ending last (`AgentLoop.ReplyEvents`); the workers of sub-agents
that run beside the loop send through the same counter, and `SharedCounter` says of every
interleaving that no number is given twice (`NumbersAreTakenOnce`) and exactly when the output rises
(`OutputRisesExactlyWhen`). The router's channel carries the events in order (`ChannelTrace`); the pump
writes them to the log in the order that delivery assumes of it (`Logs.Ordered`) exactly when no
worker overtakes another sender before the terminal event (`SharedRunIsLoggedInOrderExactlyWhen`), so
always when there is none (`OneSenderNeverOvertakes`, `NumberedRunIsLoggedInOrder`). Then every reader
gets a gapless prefix (`SentIsGaplessPrefix`), and a client that follows the reply and then reconnects
the whole log (`ReplyClientGetsTheLog`, `ReconnectIsExactlyOnce`). On the way the provider's snapshots
become deltas, and the stored session, which does not depend on the numbers
(`SharedRunIsStoredExactlyWhen`), ends up holding each message of the whole run once, failed attempts,
retries, tools and task list included, under an exact condition (`WholeRunIsStoredExactlyWhen`,
`WholeRunIsStoredOnceExactlyWhen`) and in a known order (`RunIsStoredInOrder`).

## Where the code does less than it seems to promise

These are stated as they are in the code, each with the exact condition under which it does hold or
with a concrete run.

- A terminal event appended between a reader's load and its check ends the stream without being
  sent: `CompleteExactlyWhen`, `TerminalBetweenLoadAndCheckIsMissed`.
- A thread takes its number first and sends afterwards. When the worker of a sub-agent does both between
  the two steps of another thread, the log is out of order; when it overtakes the run's finish in that
  way, a reader that follows the log never gets the finish, and no reconnect brings it:
  `OutputRisesExactlyWhen`, `SharedRunIsLoggedInOrderExactlyWhen`, `OvertakenFinishIsLost`,
  `NothingBelowCheckpointIsSent`.
- A worker that outlives its run sends behind the run's ending. Behind a diff its number is the one that
  the ending was shifted to: `OutlivingWorkerCollidesExactlyWhen`.
- A message that shows text and later only tool requests is stored more than once:
  `StoredOnceExactlyWhen`, `DroppedTextIsRepeated`. The provider interface allows that; the providers of
  the repository only ever add to a text. With deltas off, so is one whose text comes after
  its tool requests: `WholeStoredOnceExactlyWhen`, `LateTextNeedsDeltas`.
- What an attempt has shown before it failed stays in the session next to what its retry brings,
  although the finish does not list it, and so does every task list that was shown:
  `WholeRunIsStoredOnceExactlyWhen`.
- The answers of tools, which only the finish brings, come to stand behind all that was shown, also behind
  the reply that was made from them: `ToolAnswersStandLast`, `WholeRunIsStoredInOrderExactlyWhen`.
- The diff event takes the terminal's number, so the terminal's own may collide with the number of a
  later event of the run, and at the largest number with the diff's: `LateEventsKeepOrderExactlyWhen`,
  `OwnLogIsOrdered`.
- When the last child's end is told by a session event instead of its own terminal event, the
  parent's channel stays open: `LastChildClosesOnlyByItsOwnTerminal`.
- A child named by two parents leaves the two child maps in disagreement:
  `ResolveKeepsMapsExactlyWhen`, `TwoParentsBreakTheMaps`.
- A deeper sub-agent's events disappear from the top-level run's channel as soon as it is
  registered: `ChannelTrace` with `Visible`, `ChannelCarriesOwnAndChildren`.
- A child that ends with `error` keeps its session binding, and so does one whose finish could not be
  stored: `ErrorKeepsBinding`, `UnstoredChildEventKeepsBinding`.
- An empty task list reads as an open task, and the continuation lines of a title can hide the work
  that is left or show work where there is none: `RunAgreesExactlyWhen`, `WhatMisleads`,
  `BrokenTitleHidesWork`. A title
  of several lines does not read back: `RoundTripExactlyWhen`.
- With nothing to preserve, compaction removes nothing but reports a compaction:
  `CompactionFitsExactlyWhen`.
- A cancelled sub-agent whose worker starts late shows as running again: `ShowsCancelledExactlyWhen`.
- A cancel denies what is pending; a request asked after it can still be approved and go ahead:
  `DenyReachesOnlyWhatIsPending`.

## Model

| member | source | states |
|---|---|---|
| `RunEvents.AfterMembers` | crates/night24-server/src/run_events.rs:35-57 | the replay holds exactly the logged events whose number lies above the checkpoint |
| `RunEvents.RunEventStore.LoadAfter` | crates/night24-server/src/run_events.rs:35-57 | loading after a checkpoint returns those events in log order |
| `RunEvents.RunEventStore.LogHasTerminal` | crates/night24-server/src/run_events.rs:59-75 | says whether the log holds a finish or an error |
| `RunEvents.RunEventStore.Append` | crates/night24-server/src/run_events.rs:84-93 | one run's log grows by the event; logs under other file names do not change |
| `RunEvents.OfferAll` | crates/night24-server/src/run_events.rs:100-110 | every subscriber is offered the event once; exactly those that had room are kept, in order |
| `RunEvents.RunEventStore.Publish` | crates/night24-server/src/run_events.rs:95-111 | full or closed subscribers are dropped for good, a terminal drops all, other runs are untouched |
| `RunEvents.RunEventStore.AppendAndPublish` | crates/night24-server/src/run_events.rs:25-33 | both effects of one event together, and nothing else |
| `RunEvents.RunEventStore.Subscribe` | crates/night24-server/src/run_events.rs:77-82 | a fresh, empty, open channel joins the run's subscribers at the end |
| `RunEvents.SanitizeRunId` | crates/night24-server/src/run_events.rs:129-140 | a log's file name keeps plain characters in place and replaces every other one |
| `RunEvents.SanitizeIsInjective` | crates/night24-server/src/run_events.rs:129-140 | ids of the characters the program uses never share a log file |
| `RunEvents.FileNameIsPlain` | crates/night24-server/src/run_events.rs:129-140 | a log's file name has letters, digits and three signs only, and an id of these is its own file name |
| `Logs.AfterCheckpoint` | crates/night24-server/src/run_events.rs:35-57 | filtering after a checkpoint is dropping the prefix that the checkpoint covers |
| `Logs.CheckpointIsPosition` | crates/night24-server/src/reply.rs:962-970 | in an ordered log, being above the last number sent is lying at or after the position reached |
| `Logs.LastSeqIsMaximum` | crates/night24-server/src/reply.rs:966-970 | the high-water mark is the largest number among the start and the events seen |
| `Logs.TerminalIsOwed` | crates/night24-server/src/reply.rs:125-161 | the terminal is the last event owed to a reader whose checkpoint is below it |
| `RunEvents.Channel.Offer` | crates/night24-server/src/run_events.rs:100-110 | a channel takes an event exactly when its receiver lives and fewer than 64 wait |
| `Delivery.ReachableInv` | crates/night24-server/src/reply.rs:120-168 | every reachable state of writer and readers satisfies the channel and progress invariant |
| `Delivery.HeadIsNew` | crates/night24-server/src/reply.rs:143-161 | the head of a channel passes the number test exactly when its log position is not covered yet |
| `Delivery.ReplayedIsOwed` | crates/night24-server/src/reply.rs:131-142 | what a replay has left continues what was sent, and its first terminal is the log's first |
| `DeliveryGuarantees.SentIsGaplessPrefix` | crates/night24-server/src/reply.rs:120-168 | in every interleaving each reader has been sent a duplicate-free, in-order, gapless prefix of the entries above its checkpoint up to the first terminal |
| `DeliveryGuarantees.CompleteExactlyWhen` | crates/night24-server/src/reply.rs:131-161 | an ended, uncut stream was complete if and only if the terminal was loaded, or came after the check to a channel that never overflowed |
| `DeliveryGuarantees.OverflowsExactlyWhen` | crates/night24-server/src/run_events.rs:77-110 | a reader overflows if and only if a publish finds 64 events waiting for it; more never wait |
| `DeliveryGuarantees.KeepingUpIsComplete` | crates/night24-server/src/reply.rs:131-161 | a reader that is never 64 events behind and checked before the terminal came gets everything |
| `DeliveryGuarantees.TerminalBetweenLoadAndCheckIsMissed` | crates/night24-server/src/reply.rs:131-150 | a concrete run whose reader ends without the terminal |
| `DeliveryGuarantees.NothingBelowCheckpointIsSent` | crates/night24-server/src/reply.rs:131-161 | over any log, ordered or not, a reader is sent nothing whose number its checkpoint has passed |
| `DeliveryGuarantees.CheckpointSplitsTarget` | tauri-app/src/App.jsx:405 | restarting from the largest number received splits what is owed into what was received and what the new stream owes |
| `DeliveryGuarantees.ReplyThenReconnectsIsExactlyOnce` | crates/night24-server/src/reply.rs:236-267 | a chain that begins with the reply's own stream, a prefix of the log as it is written, is gapless and complete in the same way |
| `DeliveryGuarantees.ReconnectIsExactlyOnce` | tauri-app/src/App.jsx:405 | chained streams give a gapless prefix, and the whole log once the last one loaded after the terminal and was not cut |
| `RunIds.FindMarker` | crates/night24-server/src/core_client.rs:746-748 | the first place where the sub-agent marker stands, if there is one |
| `RunIds.ChildHasRootOfParent` | crates/night24-agent-core/src/lib.rs:1411 | an id built by appending marker and suffix, however deep, is cut back to its top-level run |
| `Routes.EventRoutes.RegisterSender` | crates/night24-server/src/core_client.rs:263-289 | a run gets its sender; the child records stay |
| `Routes.EventRoutes.UnregisterChildRoute` | crates/night24-server/src/core_client.rs:625-633 | the child leaves both records, and an empty child set is dropped |
| `Routes.EventRoutes.UpdateSubagentRoutes` | crates/night24-server/src/core_client.rs:585-615 | a session event registers its child under its parent, or unregisters it when the status ends it |
| `Routes.SessionSpeaksOf` | crates/night24-server/src/core_client.rs:585-615 | a session event speaks of the parent in its payload, or else of its sender; without a child or a parent it changes nothing |
| `Routes.EventRoutes.MarkTerminalRoute` | crates/night24-server/src/core_client.rs:617-623 | a terminal unregisters a child, or marks a parent as finished |
| `Routes.EventRoutes.RemoveEventSender` | crates/night24-server/src/core_client.rs:713-723 | a run leaves the table with all of its children and its mark |
| `Routes.EventRoutes.ClearEventSenders` | crates/night24-server/src/core_client.rs:701-711 | nothing is left, and the number of senders is told |
| `Routes.EventRoutes.ResolveUnderLock` | crates/night24-server/src/core_client.rs:545-567 | the locked part: new records, and the sender the event goes to |
| `Routes.RunChannel.BlockingSend` | crates/night24-server/src/core_client.rs:571-575 | an event is delivered exactly when the receiver still lives |
| `Routes.EventRoutes.RouteIsReadyToRemove` | crates/night24-server/src/core_client.rs:635-647 | a run can go exactly when no child is registered under it |
| `Routes.EventRoutes.RouteAgentEvent` | crates/night24-server/src/core_client.rs:539-583 | one event's whole way: what is delivered to whom, and what is left of the table |
| `Routes.ResolveKeepsMaps` | crates/night24-server/src/core_client.rs:585-633 | routing an event keeps the two maps exact inverses with no empty child set, when each child has one parent |
| `Routes.ChildMapsAlwaysAgree` | crates/night24-server/src/core_client.rs:585-723 | they stay inverse through every sequence of routing, registering, removing and clearing |
| `Routes.ChildStepKeepsMapsExactlyWhen` | crates/night24-server/src/core_client.rs:585-633 | from any agreeing table, registering or unregistering a child keeps the maps inverse if and only if it is not registered under another parent |
| `Routes.ResolveKeepsMapsExactlyWhen` | crates/night24-server/src/core_client.rs:539-623 | routing an event keeps them inverse if and only if the child it names is not registered under another parent; a terminal never breaks them |
| `Routes.TwoParentsBreakTheMaps` | crates/night24-server/src/core_client.rs:585-615 | a child named by two parents breaks the agreement |
| `Trackers.ForwardRunEvents` | crates/night24-server/src/agent_runner.rs:229-249 | forwards a prefix of what comes in, and stops exactly at the first event after which the run has ended and no child is counted |
| `Trackers.BindingsCoverActive` | crates/night24-server/src/reply.rs:339-487 | the pump holds a binding for every child the forwarder counts, whatever could be stored |
| `Trackers.ErrorKeepsBinding` | crates/night24-server/src/reply.rs:445-450 | a child's error leaves the forwarder's count and keeps the pump's binding |
| `RouterInvariant.RoutedExactlyWhenVisible` | crates/night24-server/src/core_client.rs:539-566 | an event goes to an open run's channel if and only if it is the run's, its direct child's, or an unregistered deeper one's |
| `RouterInvariant.ResolveTracks` | crates/night24-server/src/core_client.rs:585-633 | after an event a child is registered exactly when the last word on it is that it runs |
| `RouterInvariant.ChildrenFollowChannel` | crates/night24-server/src/core_client.rs:585-633 | the table's children of a run and the forwarder's count take the same step on every event |
| `RouterInvariant.ParentTerminalFollows` | crates/night24-server/src/core_client.rs:617-623 | a run is marked as finished exactly by its own terminal |
| `RouterSteps.NextKeepsInv` | crates/night24-server/src/core_client.rs:539-583 | every step of the reader and of the threads around it keeps the routing invariant |
| `RouterSteps.ReachableInv` | crates/night24-server/src/core_client.rs:539-583 | every reachable state satisfies it |
| `RouterGuarantees.ChannelTrace` | crates/night24-server/src/core_client.rs:539-583 | a fresh, undisturbed run's channel was sent exactly the visible events between registration and closing, in order, once each; its receiver may go as soon as its forwarder can stop |
| `RouterGuarantees.ChannelCarriesOwnAndChildren` | crates/night24-server/src/core_client.rs:539-583 | these are the run's own and its direct children's events if and only if in that window no deeper sub-agent speaks unregistered |
| `RouterGuarantees.DeeperMeansUnregistered` | crates/night24-server/src/core_client.rs:547-565 | the other visible events are exactly those of deeper sub-agents that are not registered |
| `RouterGuarantees.ClosedOnlyWhenDone` | crates/night24-server/src/core_client.rs:568-583 | a channel closes only after the run's terminal was delivered, and with no child running or, if its receiver has gone, after its forwarder could stop |
| `RouterGuarantees.TrackersAgree` | crates/night24-server/src/agent_runner.rs:235-246 | the forwarder's set equals the table's children, the pump's bindings contain it, and the pump never ends while the table has an active child |
| `RouterGuarantees.LastChildClosesOnlyByItsOwnTerminal` | crates/night24-server/src/core_client.rs:568-583 | the last child closes a finished parent's channel if and only if its own terminal event ends it |
| `RouterGuarantees.OwnEventClosesExactlyWhen` | crates/night24-server/src/core_client.rs:577-578 | an event sent to its own run's channel closes it if and only if it is the run's terminal and no child is registered |
| `RouterGuarantees.ChildEventClosesExactlyWhen` | crates/night24-server/src/core_client.rs:579-581 | a sub-agent's event sent to a run closes its channel if and only if the run was over and no child is registered |
| `RouterGuarantees.OpenAfterTerminalOnlyWithChild` | crates/night24-server/src/core_client.rs:571-583 | after any steps a run whose terminal was delivered is open only if a child was registered when that was checked |
| `RouterGuarantees.SessionStatusDecides` | crates/night24-server/src/core_client.rs:658-663 | completed, failed and cancelled take a child out of table, forwarder and pump; any other status or none puts it into all three |
| `ProviderTurns.RunContext.NextSeq` | crates/night24-agent-core/src/types.rs:50-52 | the counter hands out its value and moves on, wrapping at 64 bits |
| `ProviderTurns.RunContext.Send` | crates/night24-agent-core/src/types.rs:58-68 | one thread's two steps together: the event goes out under the run's id with the next number |
| `SharedCounter.NumbersAreTakenOnce` | crates/night24-agent-core/src/types.rs:50-68 | in every interleaving the numbers taken are those sent and those about to be, each once |
| `SharedCounter.SentNumbersDiffer` | crates/night24-agent-core/src/types.rs:50-56 | no two events sent carry the same 64-bit number until as many were taken as there are |
| `SharedCounter.EachSenderRises` | crates/night24-agent-core/src/types.rs:50-68 | the numbers of one thread rise whatever the others do |
| `SharedCounter.OutputRisesExactlyWhen` | crates/night24-agent-core/src/types.rs:50-68 | the output rises strictly if and only if no thread sends between another's taking of a smaller number and its sending it |
| `SharedCounter.OutputIsOrderedExactlyWhen` | crates/night24-agent-core/src/types.rs:50-68 | it has the order that readers rely on if and only if none does so before the terminal is out |
| `SharedCounter.OneSenderIsNumbered` | crates/night24-agent-core/src/types.rs:50-68 | a run without workers sends 1, 2, 3 and so on |
| `SharedCounter.RisingIsConsecutive` | crates/night24-agent-core/src/types.rs:50-68 | without overtaking and with nothing held back the numbers sent are 1, 2, 3 and so on |
| `ProviderTurns.NumberedFromOne` | crates/night24-agent-core/src/types.rs:50-68 | a fresh run's events carry 1, 2, 3 and so on, in the order they were sent |
| `ProviderTurns.TurnState.EmitProviderMessage` | crates/night24-agent-core/src/lib.rs:1045-1085 | a snapshot sends its delta, or the whole message when it says something else, and the whole message when tools are in it |
| `ProviderTurns.SnapshotSends` | crates/night24-agent-core/src/lib.rs:1045-1085 | a snapshot sends the rest of a grown text, itself when its text became another or it has tools, and always itself with deltas off |
| `ProviderTurns.TextPartsAre` | crates/night24-agent-core/src/tools.rs:399-411 | a message says its texts and thoughts, one below the other |
| `ProviderTurns.TurnState.Take` | crates/night24-agent-core/src/lib.rs:991-1007 | after each snapshot all that was sent, and the tables, are those of the snapshots seen so far |
| `ProviderTurns.TurnState.Messages` | crates/night24-agent-core/src/lib.rs:1009-1017 | the turn is the last snapshot of each message in order of first appearance |
| `ProviderTurns.FirstIdsAreDistinct` | crates/night24-agent-core/src/lib.rs:1002-1006 | no message is listed twice |
| `ProviderTurns.LatestIsListed` | crates/night24-agent-core/src/lib.rs:1002-1006 | the listed ids are exactly those of the snapshots, each with its own last snapshot |
| `ProviderTurns.RunProviderTurn` | crates/night24-agent-core/src/lib.rs:953-1018 | a cancel or a stream error cuts the turn at that item; else the last snapshots are returned; in both cases exactly the events of the snapshots seen were sent |
| `Conversations.IndexOf` | crates/night24-server/src/reply.rs:861-864 | the first message with an id |
| `Conversations.FirstText` | crates/night24-server/src/reply.rs:880-886 | the first text block of a message |
| `Conversations.Conversation.AppendTextDelta` | crates/night24-server/src/reply.rs:880-895 | a delta lands in the first text block, or in a new one in front |
| `Conversations.DeltaOnlyAdds` | crates/night24-server/src/reply.rs:880-895 | a delta adds its text and takes nothing away |
| `Conversations.Conversation.ApplyMessageDelta` | crates/night24-server/src/reply.rs:856-895 | a delta grows the first text of its message, or starts it, or starts a message |
| `Conversations.Conversation.MergeMessage` | crates/night24-server/src/reply.rs:805-833 | a message replaces the first one with its id and kind, and is added otherwise |
| `Conversations.Conversation.PersistCoreEvent` | crates/night24-server/src/reply.rs:749-803 | what an event makes of the conversation; an empty delta and an event without its payload make nothing |
| `Codec.SnapshotStep` | crates/night24-agent-core/src/lib.rs:1045-1085 | one snapshot, emitted and folded, takes a server that mirrors the emitter to one that mirrors it again |
| `Codec.TurnStored` | crates/night24-server/src/reply.rs:749-895 | after a turn the server mirrors the emitter, or holds a message twice, according to whether text was dropped |
| `Codec.StreamedIsLatestText` | crates/night24-agent-core/src/lib.rs:1045-1068 | the text counted as streamed is the latest one of the message that was not empty |
| `Codec.ServerMirrorsEmitter` | crates/night24-agent-core/src/lib.rs:1045-1085 | after every snapshot the server shows that text, whether it extended, shrank or rewrote the one before, and the earlier conversation is untouched |
| `Codec.StoredOnceExactlyWhen` | crates/night24-server/src/reply.rs:749-895 | after the finish every message is stored once in its final form behind the untouched earlier ones if and only if none dropped its text for tool requests |
| `Codec.TurnFinishes` | crates/night24-agent-core/src/lib.rs:1009-1017 | the turn's own messages are a finish list of that kind |
| `Codec.DroppedTextIsRepeated` | crates/night24-server/src/reply.rs:805-824 | two snapshots after which the conversation keeps three messages under one id |
| `WholeMessages.WholeTurnStored` | crates/night24-server/src/reply.rs:805-824 | with deltas off, after a turn the server holds the last snapshot of every message once, or some id twice, according to whether a message changed its kind |
| `WholeMessages.WholeStoredOnceExactlyWhen` | crates/night24-server/src/reply.rs:749-824 | with deltas off, after the finish every message is stored once in its final form if and only if none changes its kind |
| `WholeMessages.LateTextNeedsDeltas` | crates/night24-agent-core/src/lib.rs:1051-1056 | tool requests first and text later: deltas keep one message, whole messages do not |
| `Pump.KeepFirstKeepsOne` | crates/night24-server/src/reply.rs:496-513 | dropping repetitions leaves the text said once if at all, keeps all other messages in order, and changes nothing exactly when there is no repetition |
| `Pump.OnlyUserMessagesAreDropped` | crates/night24-server/src/reply.rs:497-513 | whatever is dropped was said by the user; all other messages stay in their order |
| `Pump.DroppedExactlyWhen` | crates/night24-server/src/reply.rs:497-513 | a message is dropped if and only if the user said the same words before |
| `Pump.PlaceholderIsKnownBy` | crates/night24-server/src/reply.rs:636-644 | what is removed as a placeholder is exactly an assistant message that says so of a run whose id begins with run- |
| `Pump.OneMoreKept` | crates/night24-server/src/reply.rs:632-644 | a message leaves if it is the placeholder of a run, and stays in its place otherwise |
| `Pump.DedupeUserMessageText` | crates/night24-server/src/reply.rs:496-513 | the retain pass, and nothing at all for a blank text |
| `Pump.ReplyPump.PersistSubAgentSession` | crates/night24-server/src/reply.rs:339-430 | a session event of the run opens or closes a binding and sets the child's conversation if it can be stored |
| `Pump.ReplyPump.PersistChildRunEvent` | crates/night24-server/src/reply.rs:432-487 | a bound child's event is folded into its session; its finish closes the binding if it was stored |
| `Pump.ReplyPump.PrepareDispatch` | crates/night24-server/src/reply.rs:294-337 | own events are folded into the session; a terminal that finds a diff goes out behind it |
| `Pump.ReplyPump.Dispatch` | crates/night24-server/src/reply.rs:236-267 | the event is written, and sent as long as no send has failed |
| `Pump.ReplyPump.Run` | crates/night24-server/src/reply.rs:212-292 | session, child sessions, bindings and log are a function of the incoming events, whatever the client does; the client got the events up to its first failed send |
| `Pump.ReplyPump.FinalizeSession` | crates/night24-server/src/reply.rs:528-550 | a placeholder is added exactly when a finished run left no assistant message behind the user's |
| `Pump.RemoveNoReplyPlaceholders` | crates/night24-server/src/reply.rs:632-644 | exactly the placeholders are removed |
| `PumpGuarantees.SessionIsFoldOfOwnEvents` | crates/night24-server/src/reply.rs:294-337 | the session is the fold of the run's own events alone, and what goes out depends on events and diffs alone |
| `PumpGuarantees.SessionEventIsStored` | crates/night24-server/src/reply.rs:379-427 | a stored session event replaces the child's conversation by what it brings, never empties it, starts it with the task, touches no other session, and is bound exactly when its status does not end it |
| `PumpGuarantees.ChildEventIsStored` | crates/night24-server/src/reply.rs:432-513 | a stored child event says the child's task once, keeps everything else of the fold, touches no other session, and closes the binding only on finish |
| `PumpGuarantees.OtherEventChangesNoChild` | crates/night24-server/src/reply.rs:432-487 | an event of another kind or of no bound child changes no child and no binding |
| `PumpGuarantees.UnstoredChildEventKeepsBinding` | crates/night24-server/src/reply.rs:452-484 | a child event that cannot be stored changes nothing, its binding included |
| `PumpGuarantees.TakenIsFirstEnd` | crates/night24-server/src/reply.rs:277-283 | the pump ends at the first moment its test allows |
| `PumpGuarantees.EndsExactlyWhen` | crates/night24-server/src/reply.rs:277-283 | the pump may end if and only if the run has finished or failed and no child is bound |
| `PumpGuarantees.BindingsAreTracked` | crates/night24-server/src/reply.rs:390-402 | the pump's bindings are those of the tracker that the router's theorems speak about |
| `PumpGuarantees.PumpOutlivesForwarder` | crates/night24-server/src/reply.rs:277-283 | the pump never ends by its own test while the forwarder of the same events counts a running child |
| `PumpGuarantees.ChildLogIsUntouched` | crates/night24-server/src/reply.rs:326-331 | a child's events reach the log of their own run unchanged and in order |
| `PumpGuarantees.OwnLogIsOrdered` | crates/night24-server/src/reply.rs:307-337 | a run's log rises strictly through its terminal, diff included, if and only if its events arrived so and there was a number left to shift the terminal to |
| `SharedRuns.SharedRunIsLoggedInOrderExactlyWhen` | crates/night24-agent-core/src/types.rs:50-68 | with any number of senders the run's log has the order that delivery relies on if and only if none overtakes another before the terminal is out |
| `SharedRuns.OutlivingWorkerCollidesExactlyWhen` | crates/night24-server/src/reply.rs:307-337 | behind a terminal that a diff has shifted the log goes on rising if and only if nothing of the run follows |
| `SharedRuns.SharedRunIsStoredExactlyWhen` | crates/night24-agent-core/src/lib.rs:1515-1572 | whatever workers send in between, the session holds the run if and only if no attempt drops text |
| `SharedRuns.OvertakenFinishIsLost` | crates/night24-agent-core/src/lib.rs:292-299 | after any run so far, a worker that overtakes the finish makes a follower end without it |
| `PumpGuarantees.NumberedRunIsLoggedInOrder` | crates/night24-agent-core/src/types.rs:50-68 | a run without workers beside it is logged in the order that delivery relies on |
| `PumpGuarantees.LateEventsKeepOrderExactlyWhen` | crates/night24-server/src/reply.rs:932-940 | with events after the terminal the log rises strictly if and only if no diff was put in or later numbers leave room for it |
| `PumpGuarantees.DiffPrecedesTerminal` | crates/night24-server/src/reply.rs:310-324 | every diff stands right before a terminal of the run, under the number that one had |
| `PumpGuarantees.ReplyStreamIsLogPrefix` | crates/night24-server/src/reply.rs:236-267 | what the reply's stream shows of a run is a prefix of the run's log |
| `PumpGuarantees.ReplyClientGetsTheLog` | crates/night24-server/src/reply.rs:120-292 | a client that loses the reply after some events and reconnects gets the run's log without gap or repetition |
| `PumpGuarantees.PlaceholderComesAndGoes` | crates/night24-server/src/reply.rs:528-644 | the next reply removes the placeholder the last run added, and knows it exactly by its run id |
| `PumpGuarantees.PlaceholderExactlyWhen` | crates/night24-server/src/reply.rs:528-550 | closing a session adds the placeholder if and only if the last terminal was the finish and no assistant message stands behind the user's |
| `PumpGuarantees.LastWasFinishMeans` | crates/night24-server/src/reply.rs:279-283 | the last terminal was the finish: one arrived, and no terminal of the run after it |
| `PumpGuarantees.AnsweredRunGetsNoPlaceholder` | crates/night24-server/src/reply.rs:212-292 | what the pump leaves of a run is its fold, and the placeholder exactly when it finished without an answer |
| `AgentLoop.ClampRequestRetries` | crates/night24-core/src/provider/mod.rs:44-48 | the retries asked for, none by default and never more than five |
| `AgentLoop.AttemptsMade` | crates/night24-agent-core/src/lib.rs:865-908 | at least one attempt, at most one more than the retries, all but the last tried again for cause |
| `AgentLoop.SendKind` | crates/night24-agent-core/src/types.rs:58-68 | one more event goes out behind what was sent |
| `AgentLoop.SendNotices` | crates/night24-agent-core/src/types.rs:70-78 | a hook's output, a tool's start and end and the like go out in order |
| `AgentLoop.AttemptTurn` | crates/night24-agent-core/src/lib.rs:953-1018 | an attempt sends its notices and the events of the snapshots it has seen, whether it fails or not |
| `AgentLoop.RunProviderTurnWithRetries` | crates/night24-agent-core/src/lib.rs:853-909 | the last attempt made decides; the events of all attempts, with a notice before each retry, have been sent |
| `AgentLoop.DoTaskCall` | crates/night24-agent-core/src/lib.rs:797-806 | a task-list tool works on the run's own list and returns its markdown, or its error and no change |
| `AgentLoop.RunTool` | crates/night24-agent-core/src/lib.rs:564-650 | one tool's events and response; a task-list tool that succeeds shows the list as a message of the run |
| `AgentLoop.AnswerRequests` | crates/night24-agent-core/src/lib.rs:526-549 | one response for each request of a message |
| `AgentLoop.ExecuteTurnTools` | crates/night24-agent-core/src/lib.rs:519-562 | tools are run message by message and request by request, one tool message for each message that asks |
| `AgentLoop.TurnIsAnswered` | crates/night24-agent-core/src/lib.rs:519-562 | every request is answered once, in order and under its id, and nothing else is |
| `AgentLoop.AnyShowsWorkLeft` | crates/night24-agent-core/src/lib.rs:1187-1205 | some assistant message of the turn shows an open task list without a report |
| `AgentLoop.RunAgent` | crates/night24-agent-core/src/lib.rs:437-517 | the loop ends like its turn-by-turn specification, with its result, its number of attempts, its task list and everything sent on the way |
| `AgentLoop.EndingOf` | crates/night24-agent-core/src/lib.rs:1869-1951 | a finish with the result, an empty one when cancelled, or an error |
| `AgentSteps.RepeatedExactlyWhen` | crates/night24-agent-core/src/lib.rs:867-905 | an attempt is repeated if and only if it failed for now, nobody cancelled, and at most five, by default none, are spent |
| `AgentSteps.TurnIsAnsweredInFull` | crates/night24-agent-core/src/lib.rs:596-656 | the k-th call of a turn is answered by the k-th response, with what the tool gave, or with the task list as the call leaves it, or with its error and no change |
| `AgentSteps.CallSends` | crates/night24-agent-core/src/lib.rs:775-830 | a call sends its notices and, when it shows the list, the list between them under an id of run and call |
| `AgentSteps.TurnEndsExactlyWhen` | crates/night24-agent-core/src/lib.rs:441-507 | how each turn leaves the run: cancelled, failed, without a reply to tools, ended, or going on; a turn with messages ends it if and only if it asks for no tool and leaves and shows no unfinished list |
| `AgentSteps.FlagTellsOfTools` | crates/night24-agent-core/src/lib.rs:467-471 | a turn's flag is up if and only if one of its snapshots asks for a tool |
| `AgentSteps.EndsExactlyWhen` | crates/night24-agent-core/src/lib.rs:1869-1951 | a run ends as an error if and only if it broke down and not by a cancel |
| `AgentSteps.EndingIsLast` | crates/night24-agent-core/src/lib.rs:1869-1951 | what the loop sends ends with its ending |
| `AgentSteps.StartsWithInput` | crates/night24-agent-core/src/lib.rs:428-437 | a run starts from the session and the user's input and makes at least one turn |
| `AgentLoop.ReplyEvents` | crates/night24-agent-core/src/lib.rs:1840-1951 | all that the run's own loop sends, its ending last, numbered from 1 if nothing sends beside it |
| `AgentGuarantees.HistoryIsBalanced` | crates/night24-agent-core/src/lib.rs:437-509 | at every turn the history is session, input and rounds whose requests are all answered; each round is one completed stream; a run that stops by itself leaves no tool result unread |
| `AgentGuarantees.ResultIsWhatWasProduced` | crates/night24-agent-core/src/lib.rs:487-500 | the returned messages are the history without session, input and what told the run to go on; they are its messages that are not in the user's name if and only if the provider says nothing in it |
| `AgentGuarantees.NoRequestsWithoutFlag` | crates/night24-agent-core/src/lib.rs:991-1000 | a turn without the flag has no request to answer |
| `AgentGuarantees.RunAttempts` | crates/night24-agent-core/src/lib.rs:437-509 | a run asks the provider at most turns times (retries + 1) times |
| `RunTrace.RunIsTraced` | crates/night24-agent-core/src/lib.rs:437-562 | at every turn the events sent that a conversation depends on are those of the attempts and task lists shown, and every round is one of those attempts |
| `RunTrace.ResponseIdsTell` | crates/night24-agent-core/src/lib.rs:551-557 | the id of a tool message tells the message and the number it was made from |
| `RunStorage.StreamMore` | crates/night24-server/src/reply.rs:749-895 | one more attempt, under ids of its own, keeps the server in step with all that was shown |
| `RunStorage.ListMore` | crates/night24-agent-core/src/lib.rs:808-817 | a task list shown again takes the place of what its call showed before |
| `RunStorage.RunIsKept` | crates/night24-server/src/reply.rs:749-895 | after all attempts and task lists of a run the server mirrors them, or holds an id twice, according to whether an attempt dropped text |
| `RunStorage.VisibleIsStreamed` | crates/night24-agent-core/src/lib.rs:1051-1084 | a message reaches the conversation if and only if one of its snapshots had text or began with a tool request |
| `RunStorage.RunIsStoredExactlyWhen` | crates/night24-server/src/reply.rs:749-895 | with the finish, every listed message is stored once in its final form and every other visible one once as last shown, if and only if no attempt drops text |
| `RunStorage.RunIsStoredOnceExactlyWhen` | crates/night24-server/src/reply.rs:749-895 | and nothing else is stored if and only if, besides, all that was visible is listed |
| `RunGuarantees.ProducedIsListed` | crates/night24-agent-core/src/lib.rs:487-500 | what a run produces lists the last snapshot of each message of its turns, and its tool messages, every id once |
| `RunGuarantees.ListedExactlyWhen` | crates/night24-agent-core/src/lib.rs:487-500 | a shown message is listed if and only if a completed turn has it |
| `RunGuarantees.ReplyIsPieces` | crates/night24-agent-core/src/lib.rs:1840-1951 | what a reply sends, less what no conversation depends on, is its attempts, its task lists and its ending |
| `RunGuarantees.ArrivedIsSent` | crates/night24-server/src/reply.rs:294-302 | when a reply's numbered events arrive as sent, the kinds folded into the session are those sent |
| `RunGuarantees.WholeRunIsStoredExactlyWhen` | crates/night24-server/src/reply.rs:212-292 | a whole run, mixed with notices and child events, leaves the session as it was, each listed message once in its final form and each other visible one once, if and only if no attempt, failed or not, drops text |
| `RunOrder.RunIsStoredInOrder` | crates/night24-server/src/reply.rs:749-895 | the stored run begins with all that was visible, as it first appeared, and goes on with the rest of the list in its order |
| `RunOrder.StoredInListOrderExactlyWhen` | crates/night24-server/src/reply.rs:749-895 | it is the list itself if and only if no text is dropped and the list begins with all that was visible in that order |
| `RunOrder.VisibleStandsFirst` | crates/night24-server/src/reply.rs:749-895 | a message that was visible stands before every one that only the finish brings |
| `RunStorage.CutRunIsStoredExactlyWhen` | crates/night24-server/src/reply.rs:749-895 | a run that is cut off anywhere leaves what it had shown until then, each once, if and only if that drops no text |
| `RunGuarantees.CutRunIsStored` | crates/night24-agent-core/src/lib.rs:438-441 | the same of a run that its deadline cuts off, from the events that arrived |
| `RunGuarantees.WholeRunIsStoredInOrderExactlyWhen` | crates/night24-server/src/reply.rs:212-292 | the session is what it was and then the list in its order if and only if no text is dropped and the list begins with all that was visible as it first appeared |
| `RunGuarantees.ToolAnswersStandLast` | crates/night24-agent-core/src/lib.rs:548-560 | a tool's answers stand behind everything the run has shown, in whatever turn |
| `RunGuarantees.WholeRunIsStoredOnceExactlyWhen` | crates/night24-server/src/reply.rs:212-292 | a run that ends well leaves its own messages and nothing else if and only if, besides, no failed attempt showed anything and no task list was shown |
| `Text.WordsAreSeparated` | crates/night24-server/src/reply.rs:852-854 | the words of a text are what stands between its white space |
| `Text.WhitespaceIs` | crates/night24-server/src/reply.rs:852-854 | white space is the Unicode White_Space property |
| `TaskLists.TaskListState.CreateTasks` | crates/night24-agent-core/src/task_list.rs:61-84 | all tasks become items numbered from 1, or the first bad one is reported and nothing changes |
| `TaskLists.TaskListState.UpdateTask` | crates/night24-agent-core/src/task_list.rs:86-106 | exactly the addressed item gets the given title and status; errors change nothing |
| `TaskLists.StatusWords` | crates/night24-agent-core/src/task_list.rs:10-29 | what each status word gives; pending without one |
| `TaskLists.UpdateChangesOneTask` | crates/night24-agent-core/src/task_list.rs:86-106 | an update succeeds if and only if it addresses a task, by number or else by first id, and then changes its title and status as given and nothing else |
| `TaskLists.CreateAndFinish` | crates/night24-agent-core/src/task_list.rs:61-124 | when a list is created and finished, and what each of its tasks is then |
| `TaskLists.ErrorsTell` | crates/night24-agent-core/src/task_list.rs:61-143 | which error each bad operation reports, with the number of the first bad task |
| `TaskLists.ShownByStatus` | crates/night24-agent-core/src/task_list.rs:31-37 | how a task is shown by its status, and a list without tasks |
| `TaskLists.TaskListState.FinishList` | crates/night24-agent-core/src/task_list.rs:108-124 | every item is completed and the report is set or cleared |
| `TaskLists.TaskListState.ResolveIndex` | crates/night24-agent-core/src/task_list.rs:126-143 | a number from 1 to the length, else the first item with the id, else an error |
| `TaskLists.TaskListState.RenderMarkdown` | crates/night24-agent-core/src/task_list.rs:145-170 | the list as markdown |
| `TaskLists.TaskListState.HasOpen` | crates/night24-agent-core/src/task_list.rs:172-178 | work is left exactly when there is no report and an item is not completed |
| `TaskLists.ReachableIsValid` | crates/night24-agent-core/src/task_list.rs:61-124 | after any operations ids count from 1, titles and report are trimmed and not empty, and a report implies items |
| `TaskLists.IdResolvesToItsNumber` | crates/night24-agent-core/src/task_list.rs:126-143 | an id resolves to an item if and only if it is the one made of the item's number |
| `TaskParsers.ExtractTaskLists` | crates/night24-core/src/session_store.rs:512-549 | the lists under task headings, or else the tasks of the whole text |
| `TaskParsers.ReadWorkflowState` | crates/night24-agent-core/src/lib.rs:1213-1238 | whether a list was seen, has open tasks, and has a report |
| `TaskParsers.ParseTaskLines` | crates/night24-core/src/session_store.rs:571-576 | the tasks of the lines that are task lines |
| `TaskRoundTrip.ItemIsRead` | crates/night24-core/src/session_store.rs:578-597 | a printed item is no heading for either reader, reads back with its title and mark, and is open exactly when not completed |
| `TaskRoundTrip.MarkdownIsReadBack` | crates/night24-core/src/session_store.rs:512-612 | the stored lists are the list's titles and marks in order, then what the report itself puts under task headings |
| `TaskRoundTrip.RoundTripExactlyWhen` | crates/night24-agent-core/src/task_list.rs:145-170 | they are the list alone if and only if every title is on one line and the report has no list of its own |
| `TaskLines.TaskExactlyWhen` | crates/night24-core/src/session_store.rs:578-612 | a line is a stored task if and only if it is a bullet or number, a box with any mark, and a title |
| `TaskLines.ExtractedLists` | crates/night24-core/src/session_store.rs:512-549 | the stored lists of a text are those under its task headings, or else all of its tasks as one |
| `TaskLines.OpenExactlyWhen` | crates/night24-agent-core/src/lib.rs:1269-1291 | a line reads as open if and only if it is a bullet or number and an empty box |
| `TaskLines.HeadingExactlyWhen` | crates/night24-core/src/session_store.rs:551-558 | when a line is a heading for each reader, and what its text is |
| `TaskLines.TaskHeadings` | crates/night24-core/src/session_store.rs:560-569 | the headings of a task list for the reader that stores |
| `TaskLines.ListHeadings` | crates/night24-agent-core/src/lib.rs:1240-1246 | those for the reader that goes on |
| `TaskLines.ReportHeadings` | crates/night24-agent-core/src/lib.rs:1248-1252 | the headings of a report |
| `TaskReading.LinesOfAnyMarkdown` | crates/night24-agent-core/src/task_list.rs:145-170 | the lines of any list: its heading, each title's first line behind its checkbox and the title's continuation lines, then the report |
| `TaskReading.ReaderReads` | crates/night24-agent-core/src/lib.rs:1213-1238 | over any lines the reader finds a report where a line heads one, and open work where a line reads open below a list heading |
| `TaskReading.ListIsFoundExactlyWhen` | crates/night24-agent-core/src/lib.rs:1213-1238 | the reader finds a list in a text if and only if one of its lines heads one |
| `TaskReading.RunReadsState` | crates/night24-agent-core/src/lib.rs:1199-1291 | what the run reads of any list with items: both flags, exactly |
| `TaskReading.RunAgreesExactlyWhen` | crates/night24-agent-core/src/task_list.rs:172-178 | reader and list agree on open work if and only if there is a report, or the list has been created and its titles' lines read right |
| `TaskReading.WhatMisleads` | crates/night24-agent-core/src/lib.rs:1254-1291 | titles that do not read right have a continuation line that heads something else while work is left, or reads as an open item once all is done |
| `TaskReading.PlainTitlesReadRight` | crates/night24-agent-core/src/lib.rs:1213-1291 | titles none of whose continuation lines can mislead read right |
| `TaskReading.ReportLineMisleads` | crates/night24-agent-core/src/lib.rs:1213-1238 | while work is left, one continuation line that heads a report hides it |
| `TaskReading.HeadlessTitlesReadRightExactlyWhen` | crates/night24-agent-core/src/lib.rs:1213-1291 | without headings among their continuation lines titles read right if and only if work is left or none of those lines reads as an open item |
| `TaskReading.OnlyContinuationsMislead` | crates/night24-agent-core/src/lib.rs:1254-1291 | a line that misleads the reader is always a continuation line of a title |
| `TaskReading.OneLineTitlesReadRight` | crates/night24-agent-core/src/lib.rs:1213-1291 | titles on one line read right |
| `TaskRoundTrip.BrokenTitleHidesWork` | crates/night24-agent-core/src/lib.rs:1213-1238 | a family of titles of two lines under which open work is not seen |
| `Bundler.Sorter.VisitNode` | crates/night24-gts/src/bundler.rs:144-175 | a visit adds what a node reaches, dependencies first, or fails on a cycle it reaches; it ends because nodes in neither set run out |
| `Bundler.TopologicalSort` | crates/night24-gts/src/bundler.rs:133-142 | fails if and only if the entry reaches a cycle; else lists every reachable module once, dependencies first, entry last |
| `Bundler.OrderedHasNoCycle` | crates/night24-gts/src/bundler.rs:133-175 | an order with dependencies first excludes every cycle |
| `Bundler.DependencyGraph.ReadModule` | crates/night24-gts/src/bundler.rs:50-66 | a module joins all three records, or the graph fails on it |
| `Bundler.DependencyGraph.BuildFromEntry` | crates/night24-gts/src/bundler.rs:41-70 | ends in spite of repeated queue entries, with visited, contents and dependencies over exactly the reachable modules, or fails exactly when one of them is unusable |
| `Bundler.SameReach` | crates/night24-gts/src/bundler.rs:41-70 | the built graph reaches what the files reach |
| `Bundler.BundleOrder` | crates/night24-gts/src/bundler.rs:258-304 | building and sorting together give the build order of the files, or fail for one of the two causes |
| `Compaction.TruncationSettles` | crates/night24-core/src/context_mgmt.rs:43-62 | cut any number of times an output keeps its first characters, stays within the limit and 64 more, and is fixed from the third cut on |
| `Compaction.ContextManager.TruncateToolOutputs` | crates/night24-core/src/context_mgmt.rs:43-62 | every long tool output is cut in place, nothing else changes, and the number of cuts is returned |
| `Compaction.CutReachesToolOutputs` | crates/night24-core/src/context_mgmt.rs:43-62 | each tool output beyond the limit keeps its first characters and says how many are gone, wherever it stands; every other block stays as it is |
| `Compaction.EstimateIsTheSum` | crates/night24-core/src/context_mgmt.rs:64-97 | however the additions saturate, the estimate is the true sum under the ceiling |
| `Compaction.QuarterBounds` | crates/night24-core/src/context_mgmt.rs:64-97 | a text counts for a quarter of its bytes and a little more, by the width of its characters |
| `Compaction.EstimateBounds` | crates/night24-core/src/context_mgmt.rs:64-97 | the estimate lies between a quarter of all characters and all of them with eleven for each block |
| `Compaction.CutsAreCounted` | crates/night24-core/src/context_mgmt.rs:43-62 | each tool output beyond the limit counts for one cut, and nothing else does |
| `Compaction.ContextManager.EstimateOf` | crates/night24-core/src/context_mgmt.rs:64-97 | the loop computes that estimate |
| `Compaction.ContextManager.constructor` | crates/night24-core/src/context_mgmt.rs:30-37 | the message limit is always above the number preserved |
| `Compaction.ContextManager.MaybeCompact` | crates/night24-core/src/context_mgmt.rs:99-141 | below the limit only outputs are cut; above it the recent messages stay behind a summary; the stored estimate is that of the result |
| `Compaction.ContextManager.MaybeCompactByTokenThreshold` | crates/night24-core/src/context_mgmt.rs:143-181 | the same, set off by the estimate |
| `Compaction.CompactionFitsExactlyWhen` | crates/night24-core/src/context_mgmt.rs:99-141 | an oversized conversation comes under its limit if and only if something is preserved; then it is the summary and exactly the recent messages |
| `Compaction.CompactionLeaves` | crates/night24-core/src/context_mgmt.rs:99-141 | above the limit, with something to preserve, exactly the last messages are left, behind the summary as a text of the system if there is one; otherwise all of them |
| `Compaction.CompactionIsStable` | crates/night24-core/src/context_mgmt.rs:99-141 | compacting again removes nothing |
| `Permissions.PermissionDesk.Request` | crates/night24-agent-core/src/tools.rs:236-249 | a request gets a fresh channel of its own |
| `Permissions.PermissionDesk.TakePermissionForRun` | crates/night24-agent-core/src/lib.rs:1020-1043 | a request is taken out only under its own run; the two errors change nothing |
| `Permissions.PermissionDesk.Resolve` | crates/night24-agent-core/src/lib.rs:396-411 | the decision reaches the request it names, and a wrong name changes nothing |
| `Permissions.PermissionDesk.DenyPendingForRun` | crates/night24-agent-core/src/tools.rs:509-536 | exactly the run's requests leave the table, and each of them is denied |
| `Permissions.PermissionDesk.Cancel` | crates/night24-agent-core/src/lib.rs:309-331 | a known run is flagged and its requests denied; an unknown one changes nothing |
| `Permissions.PermissionDesk.CleanupRun` | crates/night24-agent-core/src/tools.rs:498-507 | the run is forgotten and its requests denied |
| `PermissionProtocol.AlwaysSound` | crates/night24-agent-core/src/tools.rs:225-292 | in every interleaving a waiting request is in the table or has a decision on its way, and an answered one neither |
| `PermissionProtocol.WrongResolveChangesNothing` | crates/night24-agent-core/src/lib.rs:1030-1038 | a resolve under the wrong run or id changes nothing |
| `PermissionProtocol.DenyRunTakesExactly` | crates/night24-agent-core/src/tools.rs:509-536 | the deny step takes exactly the run's pending requests |
| `PermissionProtocol.GivenUpForGood` | crates/night24-agent-core/src/tools.rs:281-289 | once a waiter has given up, no later decision makes its tool go ahead |
| `PermissionProtocol.AtMostOneDecision` | crates/night24-agent-core/src/tools.rs:236-289 | each request is taken once and delivered once |
| `PermissionProtocol.EveryDecisionWasTaken` | crates/night24-agent-core/src/lib.rs:396-411 | every decision comes from the step that took the request: a resolve under its id and run, or a deny of its run |
| `PermissionProtocol.GoesAheadOnlyWhenApproved` | crates/night24-agent-core/src/tools.rs:281-289 | a tool goes ahead only when its own request was approved under its own run while pending |
| `PermissionProtocol.DeniedRunStaysDenied` | crates/night24-agent-core/src/lib.rs:327-328 | a request pending when its run is cancelled never goes ahead |
| `PermissionProtocol.DenyReachesOnlyWhatIsPending` | crates/night24-agent-core/src/tools.rs:236-292 | after any steps, what is pending when its run is denied never goes ahead, and what is asked next still can |
| `PermissionProtocol.WaitingCanBeAnswered` | crates/night24-agent-core/src/tools.rs:509-536 | a request that still waits can still be settled by denying its run |
| `Permissions.PermissionDesk.TakePendingForRun` | crates/night24-agent-core/src/tools.rs:513-531 | exactly the run's requests are taken out, all of them |
| `Permissions.OneShot.Send` | crates/night24-agent-core/src/tools.rs:237-238 | a one-shot channel takes one decision, and none once its receiver is gone |
| `SubAgents.FlagTellsOfCancel` | crates/night24-agent-core/src/subagents.rs:238-267 | the cancel flag is up exactly when a cancel came since the record was made, and never comes down |
| `SubAgents.CancelledExactlyWhen` | crates/night24-agent-core/src/subagents.rs:192-214 | with one worker the final status is cancelled if and only if a cancel came before the completion mark |
| `SubAgents.ShowsCancelledExactlyWhen` | crates/night24-agent-core/src/subagents.rs:188-267 | before its completion mark a sub-agent shows as cancelled if and only if some cancel since it was made was not followed by a start |
| `SubAgents.CountsAddUp` | crates/night24-agent-core/src/subagents.rs:356-393 | in every snapshot, filtered or not, the five counts sum to the total |
| `SubAgents.SubAgentPool.Complete` | crates/night24-agent-core/src/subagents.rs:192-202 | the completion mark records the result, and the status by the flag |
| `SubAgents.SubAgentPool.Running` | crates/night24-agent-core/src/subagents.rs:188-190 | the start mark, whatever the status was |
| `SubAgents.SubAgentPool.Fail` | crates/night24-agent-core/src/subagents.rs:204-214 | the failure mark records the error, and the status by the flag |
| `SubAgents.SubAgentPool.CreateRecord` | crates/night24-agent-core/src/subagents.rs:146-186 | a new record is queued and not cancelled |
| `SubAgents.OneRecord` | crates/night24-agent-core/src/subagents.rs:188-267 | what each operation does to the status and flag of a record |
| `SubAgents.SubAgentPool.CancelAll` | crates/night24-agent-core/src/subagents.rs:256-263 | every record is flagged, only those not over change status, and the counts are returned |
| `SubAgents.SubAgentPool.CancelOne` | crates/night24-agent-core/src/subagents.rs:246-255 | one record is flagged, or the id is unknown and nothing changes |
| `SubAgents.SubAgentPool.TakeSnapshot` | crates/night24-agent-core/src/subagents.rs:356-393 | the selected records and their counts |
| `SubAgents.OneMoreRecord` | crates/night24-agent-core/src/subagents.rs:356-393 | one more record adds one to the count of its own status, if it is selected, and to no other |

## Left out

- Processes, pipes, HTTP, SSE framing, git and SQLite: the log file is a sequence, a channel a bounded
  or unbounded queue, a changed workspace a flag that comes with an event.
- JSON: a field that may be missing or malformed is an `Option`; timestamps, working directories,
  session names and parent session ids of child sessions are not modelled.
- Clock timeouts: a stalled client, a request whose time is over and a provider turn that timed out are
  outcomes that may happen at any step.
- Failures of the log file: an append succeeds. A failed save of a child session is modelled.
- The race in `close_current_core_transport` between its generation check and the close.
- `extract_require`, `resolve_module`, `remove_imports` and the entry comparison in `bundle_modules`:
  the imports of a file are given.
- The text of the summary in `ContextManager::summarize`: it is a function of the removed messages.
- What tools do, except the task list, how permissions are levelled, hooks, skills, credential redaction
  and the follow-up permission for sensitive output: a tool's result and its notices are given.
- The text match that decides whether a provider error is retried: each error says so itself.
- `latest_task_list`, which takes the last non-empty list over the messages of a session.
- The order of the records in a sub-agent snapshot, and their messages and previews.
- The 64-bit width of lengths, message counts and task numbers; event numbers wrap or saturate as in
  the program.
- Pump.ReplyPump.Dispatch: does not repeat what `RunEventStore.AppendAndPublish` does with an event; the
  list of dispatched events stands for the calls, in order.
- AgentLoop.RunAgent: does not model the deadline over the whole run, nor an error whose text mentions
  a cancel. What a run that its deadline cuts off leaves in the session is `RunGuarantees.CutRunIsStored`.
- ProviderTurns.RunContext.Send: takes and sends in one call, as the only sender; that others may come
  between the two is the subject of `SharedCounter`.
- AgentLoop.ReplyEvents: sends as the only sender; what workers send beside it is the subject of
  `SharedRuns`.
- RunGuarantees.WholeRunIsStoredExactlyWhen: assumes what the ids are made for: those of the provider's
  messages are new in each attempt, and those of tool messages and task lists meet no other.
- Codec.ServerMirrorsEmitter: assumes snapshots as the providers build them, a text and then tool
  requests, under ids that are new to the conversation.
- TaskRoundTrip.MarkdownIsReadBack: assumes titles on one line; `TaskRoundTrip.RoundTripExactlyWhen` shows
  that others never read back.
- ProviderTurns.RunProviderTurn: leaves out the hook before the request; its notices are part of
  `AgentLoop.AttemptTurn`.
- TaskParsers.IsTaskHeading: lower-cases ASCII and the Kelvin sign, the only characters whose lower case
  can make one of the words it compares with.
- Permissions.PermissionDesk.Resolve: takes and sends in one call; that other steps may come between the
  two is the subject of `PermissionProtocol`.
