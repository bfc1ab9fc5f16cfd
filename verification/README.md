# Verified models of codex-rs protocols

This project models the parts of `codex-rs` whose guarantees span whole runs, and proves them for every
input, every interleaving and every reachable state.

- **JSON schema canonicaliser** (`Order.dfy`, `JsonPrinter.dfy`, `SchemaFixtures.dfy`): `canonicalize_json`
  decides an equivalence of JSON values that is defined without it. The tie-break by serialised text needs
  the serialiser to be injective; a printer is modelled and proved so.
- **In-process event forwarding** (`InProcessForwarder.dfy`): a bounded queue with two tiers of events. A
  consumer may read any amount or hang up at any moment. The invariant `Accounts` says that replacing each
  lag marker by that many dropped best-effort events gives back the inputs.
- **Remote JSON-RPC worker** (`RemoteWorker.dfy`, `RemoteClient.dfy`): the select loop over commands and
  frames, with writes that may fail, against a specification written on the history of inputs alone; the
  handshake in front and the stream a client sees.
- **Analytics reducer** (`AnalyticsModel.dfy`, `AnalyticsTurns.dfy`, `AnalyticsReviews.dfy`,
  `AnalyticsThreads.dfy`, `AnalyticsReducer.dfy`): a state machine over seven maps. `AnalyticsReducer` is
  the object that updates the maps in place and is proved to perform the steps the run lemmas are about.
- **Diff scanner and event batches** (`AcceptedLines.dfy`, `EventBatches.dfy`).
- **Daemon lifecycle and updater** (`DaemonLifecycle.dfy`, `DaemonServers.dfy`, `DaemonFlags.dfy`,
  `DaemonUpdater.dfy`, `DaemonLoops.dfy`, `DaemonReexecs.dfy`, `DaemonSettling.dfy`, `DaemonLagging.dfy`,
  `DaemonCommands.dfy`): processes racing for one operation lock, each a program over the points between its
  awaits, and any number of update loops. Servers and loops carry their place among all spawns.
  `DaemonCommands.dfy` has the commands as methods that perform these steps, with interference before each.
- **Scalar clamping** (`AgentIdentity.dfy`), section 5 of RFC 7748.

`Sequences.dfy` holds the few helpers they share.

Unknown server requests are answered with code -32601, which section 5.1 of the JSON-RPC 2.0 Specification
reserves for a method that does not exist.

## Properties that do not hold without exception

Each has a run that shows the exception and the exact condition under which the property holds.

- **One app server at a time.** A start spawns a detached process and writes the pid file afterwards. A starter
  that is killed in between, or fails there and sends a signal nobody waits for, leaves a server the pid file
  does not name; a later start that gets no answer from it spawns another (`DaemonServers.KilledStartDoubles`).
  `AloneThroughout` proves this is the only way.
- **The running server has the saved remote-control flag.** The flag is saved before the old server is stopped,
  so a command that fails or is killed between the two strands a server with the old flag
  (`DaemonFlags.FailedChangeStrands`). `SettledExactly` proves this is the only way, `RepairedExactly` what puts
  it right, and `StrandedIsNotRepaired` that asking for what is already saved does not.
- **One update loop at a time.** A bootstrap records its loop the same way, so one that is killed in between leaves
  a loop that no command can stop (`DaemonLoops.KilledBootstrapDoubles`). `LoopsThroughout` proves that a second loop
  comes about only by spawning next to such a one. All results about restarts and re-execs are therefore for any
  number of loops.
- **At most one restart and one re-exec a loop after the last install.** An update turn resolves the binary once and
  may then wait for the lock while another one is installed; it still starts the build it resolved, and the next
  turn has to restart again (`DaemonLagging.LaggingRestartsTwice`, `ReexecsExactly`). And a turn compares versions
  with whatever server answers its probe: while an abandoned or foreign one may answer beside the recorded server,
  there is no bound at all (`NoisyRestartsForever`). `RestartsForeverExactly` and `SettlesExactly` prove that these
  are the only ways when nothing goes wrong in between, and `FailingRestartsForever` that a restart that keeps
  failing is retried without end.

## How the environment appears

Sockets, files, clocks and other processes appear only by their outcomes: a write succeeds or fails, a queue
is full or closed, a probe is answered or not, servers and update loops may die, an unmanaged server may come
or go and a new build may be installed between any two steps. After a successful backend stop the pid file names
no live server.

## Model

| member | source | states |
|---|---|---|
| `SchemaFixtures.CanonDecidesEquiv` | codex-rs/app-server-protocol/src/schema_fixtures.rs:152-208 | two JSON values have the same canonical form if and only if they differ, at any depth, only by the order of object keys and by the order of arrays all of whose items have a sort key |
| `SchemaFixtures.EquivSameCanon` | codex-rs/app-server-protocol/src/schema_fixtures.rs:152-208 | equivalent values are canonicalised to the same value (completeness half) |
| `SchemaFixtures.SameCanonEquiv` | codex-rs/app-server-protocol/src/schema_fixtures.rs:152-208 | values with the same canonical form are equivalent (soundness half) |
| `SchemaFixtures.CanonIdempotent` | codex-rs/app-server-protocol/src/schema_fixtures.rs:152-208 | canonicalising a canonical value changes nothing |
| `SchemaFixtures.CanonEquivalent` | codex-rs/app-server-protocol/src/schema_fixtures.rs:152-208 | a value is equivalent to its canonical form, which is again a JSON value with distinct keys |
| `SchemaFixtures.EquivIsEquivalence` | codex-rs/app-server-protocol/src/schema_fixtures.rs:152-208 | the equivalence, defined without the canonicaliser, is reflexive, symmetric and transitive |
| `SchemaFixtures.SortKeyKept` | codex-rs/app-server-protocol/src/schema_fixtures.rs:210-227 | canonicalising an item never changes the sort key the parent array sorts it by |
| `SchemaFixtures.ItemsUntied` | codex-rs/app-server-protocol/src/schema_fixtures.rs:184-193 | two items of one array that tie under key and serialised text are equal, so a stable sort leaves no trace of the input order |
| `SchemaFixtures.CanonicalizeJson` | codex-rs/app-server-protocol/src/schema_fixtures.rs:152-208 | the recursive method with its loops computes the canonical form the lemmas are about |
| `SchemaFixtures.SortItems` | codex-rs/app-server-protocol/src/schema_fixtures.rs:174-196 | the loop that collects keys gives up at the first item without one and returns the items in order; otherwise the zipped in-place sort orders the items by key, then serialised text |
| `SchemaFixtures.CanonicalizeObject` | codex-rs/app-server-protocol/src/schema_fixtures.rs:197-205 | sorting the entries and inserting them one by one, children canonicalised, gives the canonical object |
| `Json.PrintInjective` | codex-rs/app-server-protocol/src/schema_fixtures.rs:180 | the compact JSON serialisation used as the tie-break maps different values to different text, escapes and nesting included |
| `Json.PrintUnique` | codex-rs/app-server-protocol/src/schema_fixtures.rs:180 | a value can be read off the front of any delimited text in only one way |
| `Json.QuotedUnique` | codex-rs/app-server-protocol/src/schema_fixtures.rs:180 | a quoted and escaped string ends at exactly one place and unescapes to exactly one string |
| `Order.SortCanonical` | codex-rs/app-server-protocol/src/schema_fixtures.rs:186-199 | sorting permutations of the same items gives the same sequence when there are no ties |
| `Order.SortMap` | codex-rs/app-server-protocol/src/schema_fixtures.rs:184-195 | sorting items zipped with their keys and projecting is sorting the items |
| `InProcessForwarder.Worker.Forward` | codex-rs/app-server-client/src/lib.rs:212-278 | after each event the log explains all inputs so far (the invariant `Accounts`); `Continue` means the event was queued or, if best-effort, dropped and counted on a full queue; `DisableStream` only after the consumer hung up; nothing the consumer has read is revoked |
| `InProcessForwarder.Worker.FlushLag` | codex-rs/app-server-client/src/lib.rs:219-256 | pending drops are reported by one `Lagged` marker with their exact number before anything else is queued; a full queue drops only best-effort events; a closed one changes nothing |
| `InProcessForwarder.Worker.Skip` | codex-rs/app-server-client/src/lib.rs:242-277 | a drop is counted (the counter saturates) and a dropped server request is failed with the overload code |
| `InProcessForwarder.Worker.Run` | codex-rs/app-server-client/src/lib.rs:504-606 | over any event stream, any consumer behaviour and any stopping point: the queue contents explain exactly the events taken, except the one that found the consumer gone; what the consumer read is a prefix of what was queued |
| `InProcessForwarder.Worker.Send` | codex-rs/app-server-client/src/lib.rs:219-278 | `send().await` queues the item behind the others or fails, and fails only if the consumer is gone |
| `InProcessForwarder.Worker.TrySend` | codex-rs/app-server-client/src/lib.rs:219-278 | `try_send` queues the item or fails at once, telling a full queue from a closed one |
| `InProcessForwarder.LosslessDelivered` | codex-rs/app-server-client/src/lib.rs:156-191 | the lossless events among the inputs are exactly the lossless events queued, in the same order |
| `InProcessForwarder.EventsConserved` | codex-rs/app-server-client/src/lib.rs:212-278 | inputs = events queued + drops reported by markers + drops still counted + auth refreshes |
| `InProcessForwarder.PrefixAccounts` | codex-rs/app-server-client/src/lib.rs:212-278 | any prefix of the queue explains a prefix of the inputs, so a consumer knows the position and size of every gap |
| `InProcessForwarder.RequestsAnsweredOnce` | codex-rs/app-server-client/src/lib.rs:556-602 | each occurrence of a server request is queued or failed exactly once, never both |
| `InProcessForwarder.AuthRefreshNeverQueued` | codex-rs/app-server-client/src/lib.rs:560-578 | a request is failed as unsupported exactly when it is an auth refresh, and no auth refresh is queued |
| `InProcessForwarder.OverloadsAreTheDrops` | codex-rs/app-server-client/src/lib.rs:580-595 | the drops number exactly the reported plus the pending ones, and the overload failures are the dropped server requests in order |
| `InProcessForwarder.AccountsMarked` | codex-rs/app-server-client/src/lib.rs:219-256 | putting a marker for all pending drops keeps the log an explanation of the same inputs |
| `RemoteWorker.Worker.Run` | codex-rs/app-server-client/src/remote.rs:203-463 | over every sequence of commands, frames, write failures and hang-ups: answers, outstanding requests, wire writes and events are those of the history; when the loop is left every command taken has been answered exactly once |
| `RemoteWorker.Worker.Turn` | codex-rs/app-server-client/src/remote.rs:207-452 | one turn of the select loop keeps the state explained by the history |
| `RemoteWorker.Worker.OnRequest` | codex-rs/app-server-client/src/remote.rs:215-248 | a duplicate id is refused; a new one is registered, written, and on a failed write answered with the error before the worker stops |
| `RemoteWorker.Worker.RefuseDuplicate` | codex-rs/app-server-client/src/remote.rs:217-223 | a duplicate id is answered and nothing else changes |
| `RemoteWorker.Worker.FailRequest` | codex-rs/app-server-client/src/remote.rs:225-247 | a request whose write fails is answered itself, is no longer waiting, and ends the worker with `Disconnected` |
| `RemoteWorker.Worker.OnCommand` | codex-rs/app-server-client/src/remote.rs:249-304 | notifications, server-request answers and shutdown are answered at once with the outcome of their write |
| `RemoteWorker.Worker.OnReply` | codex-rs/app-server-client/src/remote.rs:311-320 | a response or error answers and removes the waiter of its id, and is ignored without one |
| `RemoteWorker.Worker.OnFrame` | codex-rs/app-server-client/src/remote.rs:321-448 | notifications and requests become events, unknown requests a -32601 write, and every transport failure a `Disconnected` attempt with its error kind |
| `RemoteWorker.Worker.DrainPending` | codex-rs/app-server-client/src/remote.rs:454-462 | after the loop the remaining waiters are answered with the exit error, none is left and none is answered twice |
| `RemoteWorker.Worker.Deliver` | codex-rs/app-server-client/src/remote.rs:926-936 | an event is put on the channel unless the consumer is gone |
| `RemoteWorker.UnansweredIffOutstanding` | codex-rs/app-server-client/src/remote.rs:215-248 | a command is unanswered exactly when it is the one outstanding request of its id |
| `RemoteWorker.AnsweredAppend` | codex-rs/app-server-client/src/remote.rs:311-320 | an answer never changes, and an accepted request without one is answered by the first reply with its id |
| `RemoteWorker.DuplicateRefused` | codex-rs/app-server-client/src/remote.rs:217-223 | a duplicate id gets `InvalidInput` and leaves the wire, the events, every waiter and the worker as they were |
| `RemoteWorker.AttemptsAreDecodedFrames` | codex-rs/app-server-client/src/remote.rs:307-448 | the events attempted are the decoded frames in order, followed by `Disconnected` exactly when the exit error is set; so it comes at most once and last |
| `RemoteWorker.DeliveredUntilHangUp` | codex-rs/app-server-client/src/remote.rs:926-936 | the events delivered are a prefix of those attempted, and all of them unless the consumer hung up |
| `RemoteWorker.StreamIsDecodedWire` | codex-rs/app-server-client/src/remote.rs:597-602 | what a client has seen, handshake events first, is a prefix of the in-order decoding of everything the server sent, closed by `Disconnected` only if the worker failed |
| `RemoteWorker.UnknownRequestsRejectedOnce` | codex-rs/app-server-client/src/remote.rs:347-379 | each undecodable server request, and nothing else, gets exactly one -32601 write attempt, in order |
| `RemoteWorker.AdvanceExplained` | codex-rs/app-server-client/src/remote.rs:207-452 | every step keeps answers, pending map, writes and events equal to what the history determines |
| `RemoteClient.AwaitInitialized` | codex-rs/app-server-client/src/remote.rs:814-905 | the handshake loop stops at the first frame that decides it; buffered events and rejections are exactly those of the frames before, in order; running out of frames is the timeout |
| `RemoteClient.InitializeRemoteConnection` | codex-rs/app-server-client/src/remote.rs:791-917 | the handshake succeeds if and only if both writes succeed and the deciding frame is the initialize response, and then returns every event decoded meanwhile; otherwise it fails with the kind of the first thing that went wrong; every undecodable request read is rejected |
| `RemoteClient.Session` | codex-rs/app-server-client/src/remote.rs:183-471 | handshake, then any interleaving of worker turns and `next_event`: what the client has seen is a prefix of the in-order decoding of all frames read, handshake first, then `Disconnected` exactly if the worker failed; and all of it once `next_event` had nothing left and nobody hung up |
| `RemoteClient.Connection` | codex-rs/app-server-client/src/remote.rs:203-463 | after the handshake the client sees the handshake events and then exactly what the worker delivers |
| `RemoteClient.TakeFrame` | codex-rs/app-server-client/src/remote.rs:833-865 | one frame of the handshake gives its event or its rejection |
| `RemoteClient.Client.NextEvent` | codex-rs/app-server-client/src/remote.rs:597-602 | buffered handshake events come first, then the channel in order, none skipped or repeated; nothing is returned only when all were seen |
| `RemoteClient.HandshakeStep` | codex-rs/app-server-client/src/remote.rs:816-896 | one more frame adds exactly its own event or rejection |
| `AcceptedLines.GitDiffSummarised` | codex-rs/analytics/src/accepted_lines.rs:30-83 | for every multi-file git diff, rendered with either line ending, the scanner counts exactly the added and deleted hunk lines, even those that look like file headers, and lists the effective added lines in order under the path of their file |
| `AcceptedLines.FingerprintsFromUnifiedDiff` | codex-rs/analytics/src/accepted_lines.rs:30-83 | the loop over the lines of any text computes the fold of the line rules |
| `AcceptedLines.ScanHunkLine` | codex-rs/analytics/src/accepted_lines.rs:30-83 | inside a hunk a line is taken by its first character only |
| `AcceptedLines.ScanFile` | codex-rs/analytics/src/accepted_lines.rs:30-83 | a file section contributes its own hunks under its own path, whatever state the scanner was in |
| `AcceptedLines.ScanIgnoresCr` | codex-rs/analytics/src/accepted_lines.rs:39 | a carriage return at the end of a line changes nothing |
| `AcceptedLines.LinesOfJoin` | codex-rs/analytics/src/accepted_lines.rs:39 | splitting joined lines gives back the lines, minus a trailing carriage return |
| `AcceptedLines.NormalizeKeepsWords` | codex-rs/analytics/src/accepted_lines.rs:157-169 | a normalised line has the words of the original, is a fixed point, and two effective lines get the same fingerprint exactly when they have the same words |
| `AcceptedLines.EffectiveLine` | codex-rs/analytics/src/accepted_lines.rs:157-169 | a line is effective if and only if it has a letter, digit or underscore and its words joined by single spaces take more than three bytes |
| `AcceptedLines.PathOfHeader` | codex-rs/analytics/src/accepted_lines.rs:143-155 | whatever white space surrounds it, a header path loses one `a/` or `b/`, `/dev/null` and only it gives no path, and other paths are kept |
| `EventBatches.TrackEventRequestBatches` | codex-rs/analytics/src/client.rs:413-434 | the batches concatenate to the events, none is empty, isolated events are alone, and no other such partition has fewer batches |
| `EventBatches.NeededIsLeast` | codex-rs/analytics/src/client.rs:413-434 | every contiguous partition that isolates the isolated events has at least as many batches as computed |
| `EventBatches.OneBatchSavesNothing` | codex-rs/analytics/src/client.rs:413-434 | appending one admissible batch raises the number of batches needed by at most one |
| `AnalyticsTurns.TurnReportedOnce` | codex-rs/analytics/src/reducer.rs:1464-1515 | from an initialised connection and thread, the matched start response, the resolved config and the completion of a turn give exactly one turn event, in every order and every interleaving with other facts, wherever the client request precedes its response: at the last of the three, with the fields they supply |
| `AnalyticsTurns.JoinStep` | codex-rs/analytics/src/reducer.rs:594-618 | each of the three facts is recorded, and the one that completes the set emits the event and forgets the turn |
| `AnalyticsTurns.ProgressAfter` | codex-rs/analytics/src/reducer.rs:781-807 | at every point of such a run the stored turn holds exactly the facts that have arrived |
| `AnalyticsTurns.BenignStep` | codex-rs/analytics/src/reducer.rs:1186-1220 | other facts neither disturb an incomplete turn nor emit its event |
| `AnalyticsTurns.CountsAreTally` | codex-rs/analytics/src/reducer.rs:349-371 | in every reachable state a turn's tool counts and steer count are those of its own facts since its state was created |
| `AnalyticsTurns.TurnEventCounts` | codex-rs/analytics/src/reducer.rs:2479-2487 | every turn event carries those counts, and its total is the sum of the seven kinds |
| `AnalyticsTurns.OtherTurnsUntouched` | codex-rs/analytics/src/reducer.rs:1092-1105 | facts of other turns change nothing about a turn and do not emit its event |
| `AnalyticsReviews.SummariesAccountForReviews` | codex-rs/analytics/src/reducer.rs:1397-1462 | in every reachable state the summary of an item exists exactly if it was reviewed since its last clearing, and then gives number, guardian and user counts, last outcome and the OR of the permission flags |
| `AnalyticsReviews.ToolItemEventReviews` | codex-rs/analytics/src/reducer.rs:1979-2017 | every tool item event carries the account of the reviews of that thread, turn and item since the last clearing, total = guardian + user, outcome of the last one, and clears it |
| `AnalyticsReviews.LogIsAboutItem` | codex-rs/analytics/src/reducer.rs:1600-1611 | permission and network reviews and reviews of other items never contribute |
| `AnalyticsReviews.ReviewsConserved` | codex-rs/analytics/src/reducer.rs:818-932 | for every request id in every reachable state: approval requests stored = resolved + overwritten + still pending |
| `AnalyticsReviews.SilentUntilStored` | codex-rs/analytics/src/reducer.rs:934-1017 | an id that is not pending produces no event and no change, however often it is answered or aborted, until it is stored again |
| `AnalyticsReviews.SummaryStep` | codex-rs/analytics/src/reducer.rs:1445-1462 | each fact adds to an item's summary exactly the review it closes for that item, and item completion clears it |
| `AnalyticsThreads.TreeEventsCarryRootClient` | codex-rs/analytics/src/reducer.rs:1517-1553 | every compaction, guardian, review and tool item event of a thread in a subagent tree grown parent first, with thread responses of its members only on the root's connection, carries the latest client data of the root's connection |
| `AnalyticsThreads.TreeConnection` | codex-rs/analytics/src/reducer.rs:511-539 | every thread of the tree resolves to the latest data of the root's connection |
| `AnalyticsThreads.TreeInherits` | codex-rs/analytics/src/reducer.rs:511-539 | at every point of the run the threads grown so far are connected like the root, and the others not to any other connection |
| `AnalyticsThreads.LatestIsStored` | codex-rs/analytics/src/reducer.rs:486-509 | the stored client data of a connection is that of its last initialize |
| `AnalyticsThreads.ClientOfThread` | codex-rs/analytics/src/reducer.rs:1517-1553 | events that carry client data carry that of the connection of their own thread |
| `AnalyticsThreads.ThreadStepEffect` | codex-rs/analytics/src/reducer.rs:1225-1249 | without a thread response of its own, a thread's connection changes only from none to its parent's |
| `AnalyticsReducer.Reducer.Ingest` | codex-rs/analytics/src/reducer.rs:374-484 | updating the seven maps in place gives the state and events of the step function, for every fact |
| `AnalyticsReducer.Reducer.Drain` | codex-rs/analytics/src/client.rs:62-69 | the queue task over any queue: each turn whose facts join is reported exactly once, every tool item and turn event accounts for the facts before it, and stored reviews are resolved, overwritten or pending |
| `AnalyticsReducer.Reducer.IngestAll` | codex-rs/analytics/src/client.rs:62-69 | the queue loop reduces every fact in order and sends one event list for each |
| `AnalyticsReducer.SentReportsJoins` | codex-rs/analytics/src/reducer.rs:1464-1515 | in the event lists sent for any queue, every turn whose three facts arrive among benign ones from some point on is reported exactly once, at the last of the three |
| `AnalyticsReducer.Reducer.MaybeEmitTurnEvent` | codex-rs/analytics/src/reducer.rs:1464-1515 | in place, equal to the step function's emission and removal of a ready turn |
| `AnalyticsReducer.Reducer.RecordItemReviewSummary` | codex-rs/analytics/src/reducer.rs:1445-1462 | only the item's own summary changes, by one review |
| `AnalyticsReducer.Reducer.EmitReviewEvent` | codex-rs/analytics/src/reducer.rs:1397-1443 | in place, equal to the step function: the summary is updated even when the thread has no client to report for |
| `AnalyticsReducer.Reducer.Resolve` | codex-rs/analytics/src/reducer.rs:1000-1017 | a pending review is removed and reported, an unknown id does nothing |
| `AnalyticsReducer.Reducer.IngestThread` | codex-rs/analytics/src/reducer.rs:486-561 | in place, equal to the thread steps, changing only connections and threads |
| `AnalyticsReducer.Reducer.IngestReview` | codex-rs/analytics/src/reducer.rs:818-1017 | in place, equal to the review steps, changing only pending reviews and summaries |
| `AnalyticsReducer.Reducer.IngestRequest` | codex-rs/analytics/src/reducer.rs:747-816 | in place, equal to the request steps, changing only requests and turns |
| `AnalyticsReducer.Reducer.IngestTurn` | codex-rs/analytics/src/reducer.rs:594-641 | in place, equal to the turn steps, changing only turns |
| `AnalyticsReducer.Reducer.IngestItem` | codex-rs/analytics/src/reducer.rs:1069-1223 | in place, equal to the item steps, changing only turns, start times and summaries |
| `DaemonLifecycle.AlwaysSafe` | codex-rs/app-server-daemon/src/lib.rs:270-457 | in every interleaving of commands, update turns, kills, deaths of servers and loops, foreign servers and installs: only the lock holder is past its lock, and it knows the saved flag and, wherever it needs it, that the pid file names no live server or loop |
| `DaemonLifecycle.SafeStep` | codex-rs/app-server-daemon/src/lib.rs:694-707 | every action of every process keeps that invariant |
| `DaemonServers.OnlyHolderChanges` | codex-rs/app-server-daemon/src/lib.rs:270-457 | settings change and servers are spawned, recorded and stopped only by a step of the lock holder; a server is spawned only while none is recorded, and abandoned only by ending its starter between spawn and record |
| `DaemonServers.AloneExactly` | codex-rs/app-server-daemon/src/backend/pid.rs:180-227 | with at most one server alive, an action leaves at most one if and only if it does not spawn one while an abandoned one lives |
| `DaemonServers.AloneThroughout` | codex-rs/app-server-daemon/src/backend/pid.rs:180-227 | over every run: at most one server is alive throughout if and only if no step spawns next to an abandoned one |
| `DaemonServers.NeverTwo` | codex-rs/app-server-daemon/src/lib.rs:270-457 | in every run that ends no starter between spawn and record, two servers never coexist |
| `DaemonServers.AnsweringOrphansFenced` | codex-rs/app-server-daemon/src/lib.rs:288-351 | however many starters are ended there, at most one server is alive as long as abandoned servers answer probes |
| `DaemonServers.KilledStartDoubles` | codex-rs/app-server-daemon/src/backend/pid.rs:180-227 | two servers do coexist: from every state with no server and a free lock there is a run of two starts, the first killed before it writes the pid file, that ends with one recorded and one abandoned server |
| `DaemonServers.ForeignServerUntouched` | codex-rs/app-server-daemon/src/lib.rs:519-608 | while an unmanaged server answers, in every interleaving restart, stop, bootstrap, remote-control changes and updater restarts can only fail, and settings and servers stay as they were |
| `DaemonServers.RefusedStep` | codex-rs/app-server-daemon/src/lib.rs:326-457 | each guarded command step then changes nothing and comes strictly closer to failing |
| `DaemonFlags.SettledExactly` | codex-rs/app-server-daemon/src/lib.rs:519-608 | the recorded server's remote-control flag keeps agreeing with the saved one if and only if no action ends the lock holder between saving a new flag and stopping the old server |
| `DaemonFlags.FlagSaved` | codex-rs/app-server-daemon/src/lib.rs:288-351 | in every run without such an action, whenever the lock is free a recorded server has the saved flag |
| `DaemonFlags.FailedChangeStrands` | codex-rs/app-server-daemon/src/lib.rs:519-566 | the exception is real: from every state with a recorded server there is a run of a flag change that fails and leaves the new flag saved, the old server running and the lock free |
| `DaemonFlags.RepairedExactly` | codex-rs/app-server-daemon/src/lib.rs:270-457 | a stranded server agrees with the saved flag again exactly when it is stopped or dies or its own flag is saved |
| `DaemonFlags.StrandedIsNotRepaired` | codex-rs/app-server-daemon/src/lib.rs:485-566 | start, setting the saved flag again, and ensuring remote control that is already enabled can all succeed and leave a stranded server as it is |
| `DaemonCommands.Daemon.Start` | codex-rs/app-server-daemon/src/lib.rs:288-324 | from any state, stranded or not: the recorded server is left as it was, or was spawned during the command and has the saved flag |
| `DaemonCommands.Daemon.Restart` | codex-rs/app-server-daemon/src/lib.rs:326-351 | from any state: on success no server is recorded but one spawned during the command, with the saved flag and a build installed during it |
| `DaemonCommands.Daemon.Stop` | codex-rs/app-server-daemon/src/lib.rs:399-427 | from any state: on success no server is recorded |
| `DaemonCommands.Daemon.TryRestartIfRunning` | codex-rs/app-server-daemon/src/lib.rs:354-397 | from any state: after a restart no server is recorded but one spawned during the turn, of the resolved build and with the saved flag; the build of the turn's own loop changes exactly on a forced restart; `NotRunning` only if nothing runs; no forced turn ends as `AlreadyCurrent` or `NotReady` |
| `DaemonCommands.Daemon.UpdateRunning` | codex-rs/app-server-daemon/src/lib.rs:365-383 | the same, once a server was seen recorded |
| `DaemonCommands.Daemon.SetRemoteControlLocked` | codex-rs/app-server-daemon/src/lib.rs:519-566 | from any state: on success the flag is saved, and a recorded server was spawned during the command and has it, unless the flag was saved before and the server was left as it was |
| `DaemonCommands.Daemon.ChangeRemoteControl` | codex-rs/app-server-daemon/src/lib.rs:548-558 | saving and replacing, when the flag differs: on success a recorded server was spawned during the command and has the flag, even if the old one was stranded |
| `DaemonCommands.Daemon.BootstrapLocked` | codex-rs/app-server-daemon/src/lib.rs:568-608 | from any state: on success the flag is saved, a recorded server was spawned during the command and has it, and a recorded update loop was spawned during the command and runs a build installed meanwhile |
| `DaemonCommands.Daemon.SetRemoteControl` | codex-rs/app-server-daemon/src/lib.rs:514-517 | the same as its locked part, run as a whole command |
| `DaemonCommands.Daemon.Bootstrap` | codex-rs/app-server-daemon/src/lib.rs:480-483 | the same as its locked part, run as a whole command |
| `DaemonCommands.Daemon.EnsureRemoteControlStarted` | codex-rs/app-server-daemon/src/lib.rs:485-502 | on success remote control is saved as enabled, and a recorded server was spawned during the command and has it, unless it was saved before and the server was left as it was |
| `DaemonCommands.Daemon.WaitUntilReady` | codex-rs/app-server-daemon/src/lib.rs:442-457 | waiting changes nothing, but servers and update loops may have died |
| `DaemonCommands.Daemon.ReplaceBackend` | codex-rs/app-server-daemon/src/lib.rs:337-341 | stop if it was running, then start: on success nothing is recorded but a server spawned during the command, with the given flag |
| `DaemonCommands.Daemon.Spawn` | codex-rs/app-server-daemon/src/backend/pid.rs:117-191 | the spawned server takes the next serial and has the given flag and the resolved build, or else one installed meanwhile, and nothing is recorded yet |
| `DaemonCommands.Daemon.Record` | codex-rs/app-server-daemon/src/backend/pid.rs:192-228 | on success the pid file names the spawned server if it still lives; on failure nothing is recorded |
| `DaemonCommands.Daemon.RestartUpdater` | codex-rs/app-server-daemon/src/lib.rs:587-593 | from any state: on success a recorded update loop was spawned during the command and runs a build installed meanwhile, and the recorded server is the same unless it died |
| `DaemonCommands.AlwaysAged` | codex-rs/app-server-daemon/src/backend/pid.rs:180-227 | in every interleaving the serial of a recorded or spawned server is below the number of processes spawned so far, so one at or above the number at the start of a command was spawned during it |
| `DaemonLoops.AlwaysLooped` | codex-rs/app-server-daemon/src/update_loop.rs:53-141 | in every interleaving, for any number of update loops: every turn belongs to a live loop that is in no other turn, is forced exactly if that loop runs another build than the one the turn resolved, and what it has started is of that build |
| `DaemonLoops.LoopsExactly` | codex-rs/app-server-daemon/src/lib.rs:587-593 | with at most one update loop alive, an action leaves at most one if and only if it does not spawn one while another lives |
| `DaemonLoops.LoopsThroughout` | codex-rs/app-server-daemon/src/backend/pid.rs:180-227 | over every run: at most one update loop is alive throughout if and only if no step spawns one next to another |
| `DaemonLoops.NeverTwoLoops` | codex-rs/app-server-daemon/src/backend/pid.rs:180-227 | in every run that ends no bootstrap between spawning and recording the loop, two loops never coexist and the one there is is recorded or about to be |
| `DaemonLoops.KilledBootstrapDoubles` | codex-rs/app-server-daemon/src/backend/pid.rs:180-227 | two loops do coexist: from every state with a free lock, no server and no recorded loop there is a run of two bootstraps, the first killed before it writes the loop's pid file, that leaves two more loops |
| `DaemonUpdater.ReexecFollowsRestart` | codex-rs/app-server-daemon/src/lib.rs:354-397 | over every run: whoever re-execs its loop launched the turn while that loop's and the installed build differed, restarted the server after that, has held the lock since the restart, and re-execs into the build that was installed at the launch |
| `DaemonUpdater.Traced` | codex-rs/app-server-daemon/src/update_loop.rs:91-119 | at every point of a run, the turn in progress was launched with modes and build of that moment, and a turn past its restart has restarted the server and held the lock since |
| `DaemonReexecs.ReexecsSettle` | codex-rs/app-server-daemon/src/update_loop.rs:53-141 | once the binary no longer changes, in every interleaving whatsoever, with any number of loops, kills, failures and abandoned or foreign servers: at most one re-exec a loop, one more for each loop in a forced turn that resolved another build, and none if every loop is current and in no turn |
| `DaemonReexecs.ReexecStep` | codex-rs/app-server-daemon/src/update_loop.rs:91-120 | every action but an install pays for the re-exec it makes out of what its loop had left to do |
| `DaemonLagging.ReexecsExactly` | codex-rs/app-server-daemon/src/update_loop.rs:91-120 | with the lock free, what the loops have left is exactly the greatest number of re-execs that a run without an install can make |
| `DaemonSettling.UpdaterSettles` | codex-rs/app-server-daemon/src/update_loop.rs:53-141 | once the binary no longer changes, in every interleaving with other commands in which no server is abandoned, no decided restart fails and no foreign server comes up: at most three restarts a loop and one more; one a loop if no turn lags and no bootstrap is about to start a loop; for a single recorded loop one, or two if its turn lags; none once everything is current |
| `DaemonSettling.RestartStep` | codex-rs/app-server-daemon/src/update_loop.rs:91-120 | every such action pays for the restart it makes out of what the loops had left to do |
| `DaemonLagging.RestartsForeverExactly` | codex-rs/app-server-daemon/src/lib.rs:365-383 | with the lock free and any number of loops: there is no bound on the restarts of those runs if and only if an abandoned server lives, or a foreign one answers while a server is recorded, whose answer may tell another version each time |
| `DaemonLagging.SettlesExactly` | codex-rs/app-server-daemon/src/update_loop.rs:91-120 | with the lock free and at most one loop: more restarts than there are loops are possible if and only if the state is noisy in that way or the loop's turn resolved another build than the installed one and can still start it |
| `DaemonLagging.NoisyRestartsForever` | codex-rs/app-server-daemon/src/lib.rs:365-383 | from every noisy state with the lock free there is, for every n, a run without kills, failures or installs that makes n restarts |
| `DaemonLagging.LaggingRestartsTwice` | codex-rs/app-server-daemon/src/update_loop.rs:98-108 | from every state with the lock free and no abandoned server in which a turn lags there is a run with two restarts |
| `DaemonLagging.FailingRestartsForever` | codex-rs/app-server-daemon/src/lib.rs:376-397 | a loop that is not current restarts the server as often as you like while no restart becomes ready |
| `DaemonLagging.InstallMakesLag` | codex-rs/app-server-daemon/src/update_loop.rs:95-108 | installing another version while a turn waits for the lock makes the turn lag |
| `AgentIdentity.ClampedIsScalar` | codex-rs/agent-identity/src/lib.rs:379-387 | the clamped key, read as a little-endian integer, is a multiple of 8 in [2^254, 2^255), as section 5 of RFC 7748 demands |
| `AgentIdentity.ClampedIdempotent` | codex-rs/agent-identity/src/lib.rs:379-387 | clamping again changes nothing |
| `AgentIdentity.ClampedKeepsTheRest` | codex-rs/agent-identity/src/lib.rs:379-387 | by value only the three lowest and two highest bits are replaced |
| `AgentIdentity.Curve25519SecretKey` | codex-rs/agent-identity/src/lib.rs:379-387 | the in-place byte updates on the digest's first 32 bytes give the clamped key |

## Left out

- Sockets, TLS, WebSocket framing, timeouts as durations, task scheduling and abort: only their outcomes are modelled.
- Detached client requests, notifications and server-request answers of the in-process worker, which do not touch the event queue: `InProcessForwarder.Worker.Run` models its commands only by where they stop the loop.
- JSON numbers are kept as their printed text, and a JSON object as entries with distinct keys in the order of the map.
- Which characters are white space or alphanumeric is a parameter of the diff scanner; fingerprints are kept as the pair of path and line that is hashed.
- A turn's latest diff is kept in the reducer as the summary the scanner gives for it; the repository hash and the fingerprints of the accepted-lines event are not part of the event modelled.
- Answers to approval requests carry their review status and resolution; the enum mappings from each decision to them, and from each item status to an outcome, are one branch each.
- Event payload fields that no branch reads are opaque; skill, app, hook and plugin facts pass through as one event for each item they list.
- The once-per-turn filters for app and plugin use in `codex-rs/analytics/src/client.rs`: a set membership each.
- AnalyticsTurns.TurnReportedOnce: the other facts of the run may not be a second start, config or completion of the same turn, move that turn to another thread, or reuse its start request while it waits, because then the three facts no longer agree.
- The interleavings of several daemon processes are a state machine on values; the in-place form in `DaemonCommands.dfy` is one process with interference on the processes around it.
- The pid files and their reservation locks appear as which live server and which live loop is recorded; process ids and start times, which tell a live record from a reused id, are not modelled.
- The retry of a busy update turn is the step at which a waiting process may try the lock again, as often as it likes; installing a new build is an environment step, and a build never changes once it is resolved.
- A failed re-exec is not told apart from a failed wait before it: both end the update with an error and the loop's old build.
- DaemonSettling.UpdaterSettles: is about runs in which no server is abandoned, no decided restart fails and no foreign server comes up, because `DaemonLagging.NoisyRestartsForever` and `DaemonLagging.FailingRestartsForever` show that there is no bound otherwise.
- DaemonLagging.SettlesExactly: is for at most one loop, because with several the restarts that one loop saves another are not counted exactly; for any number `DaemonSettling.UpdaterSettles` gives the bounds.
- SSH key encoding, signatures, tokens, base64, hashing and URL building in `codex-rs/agent-identity/src/lib.rs`.
- Fixture files, TypeScript generation, agent-graph storage, packaging and release scripts.
