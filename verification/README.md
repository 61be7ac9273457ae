# TeamSpeak client: a verified model

A Dafny model of the parts of a TeamSpeak client library where order, state and time meet, and proofs
about them. `dafny verify dfyconfig.toml` checks the whole project.

Where the library changes an object step by step, the model has a class with that object's state; each
of its methods is proved equal to a function on the object's value, and the lemmas are about those
functions, over every run. Some of that state is bookkeeping for the statements: `VoiceClient` numbers
attempts, calls, loops and deliveries, which the source keeps apart as promises and closures, lists what
is ready to run, and records the hooks that were called; other classes record what was told to whom.
Where the library computes a value, the model has functions.

| area | modules |
|---|---|
| the channel tree | `Forest`, `ChannelTree`, `TreeSteps`, `TreeLaws`, `TreeEffects`, `TreeRemove`, `TreeDraft`, `SiblingSort`, `SiblingChain`, `TreeBuild`, `TreeLoops`, `TreeHung`, `TreeFrom`, `TreeFromMethod`, `TreeRoundTrip`, `TreeServer` |
| a voice client's answers | `Commands`, `CommandTracking`, `CommandLaws`, `CommandSources`, `CommandLink` |
| a ServerQuery client's answers | `Query`, `QueryClients`, `QueryLink` |
| the life of a connection | `Lifecycle`, `LifecycleLaws`, `VoiceClients`, `EventIteration` |
| streams | `Published`, `PublishedLaws`, `PublishedRuns`, `PublishedStreams`, `Streams`, `StreamsLaws`, `StreamsSignals`, `StreamRegistries`, `Emitting` |
| the view | `Preorder`, `View`, `ViewStores` |
| text and bytes | `Glob`, `KnownHosts`, `Lines`, `Rows`, `RowLaws`, `Numbers` |
| flood control | `Pacing` |

## What is proved

**Channel tree.** A channel list, however broken, becomes a forest over exactly the ids it names, and is
called consistent exactly when it was one. Every event keeps the forest. A server that stores, for each
channel, its parent and the sibling before it, and silently rewrites the sibling behind a change, is
followed exactly: the tree that took its events equals the tree of a fresh listing, for every run. Building
a tree from the records of a tree, in any order, gives that tree back.

**Answers.** By return code on a voice connection and by order alone on a ServerQuery one, every command
that is answered gets its own rows, however many commands before it were given up on, against a server that
answers in order. For the ServerQuery client it is known in every run what a command is answered with
(`EveryAnswerKnown`), also when rows come after their answer is over, or never. A client that waited in vain
for the row of a create remembers its key, and takes the next row that has that key alone for the late one.
`ExactIff` and `OwnRowsIff` say exactly when that leaves a command with its own rows: with rows that come in
time, when its own answer carries the key, or none of its rows before its `error` has that key and no other.
`MissingRowCosts` is a run in which a command does lose a row so, and `EveryAnswerIsOwn` says that none does
while every create is given its row. A write that fails is taken to do so before a later line is answered.

**Connection.** A transition system of attempts, sessions, goodbyes, deliveries and the reconnect loop, in
which anything may happen between two waits. Each attempt ends once, each session ends once, no attempt
starts before the last `disconnected` was delivered, and one reconnect loop runs at most. Continuations wait
in a queue, and events are delivered, as by `setImmediate`, only when it is empty. `OrderMatters` shows why
that rule is needed: without it there is a run in which the continuation of an attempt that was given up
fails the next attempt. With it, `AbandonedDoesNothing` shows that it finds none.

**Streams, view, text, pacing.** See the table.

Where the code and its comments differ, the model follows the code. One place: by the comment in
`ChannelTree.from` it is the channels of a loop that are hung at the top. The code hangs, in input order,
every channel that is not reachable yet. `BuildRecords` says which these are: those from which the parents
named lead neither to the top nor to an earlier row. `BelowLoopHung` has an input in which that is a
channel in no loop.

## Model

| member | source | states |
|---|---|---|
| `TreeFromMethod.From` | src/core/channel-tree.ts:77-141 | Building in place gives the tree `Build` defines, a forest for every list of rows, duplicates, missing parents and loops included. |
| `TreeFrom.BuildWellFormed` | src/core/channel-tree.ts:77-141 | Whatever the rows, each channel is in exactly one list, once, its parent's; every channel is under the top; every order is the sibling before. |
| `TreeFrom.BuildRecords` | src/core/channel-tree.ts:77-141 | The tree holds exactly the non-zero ids given, each with the properties of its last row, and under the parent that row names if that is another of them, unless its row is hung: exactly when the parents named lead neither to the top nor to an earlier row. |
| `TreeFrom.BelowLoopHung` | src/core/channel-tree.ts:112-134 | An input in which a channel that is not its own ancestor is hung, against the comment. |
| `TreeHung.TurnIff` | src/core/channel-tree.ts:124-126 | When the turn of a row comes it is unreachable exactly when no parents named lead from it to the top or to a row before it. |
| `TreeFrom.BuildConsistentIff` | src/core/channel-tree.ts:77-141 | The tree is called consistent exactly when the rows had unique non-zero ids, present parents with no loop, and one predecessor chain under each parent. |
| `TreeFromMethod.SortLists` | src/core/channel-tree.ts:109-111 | Every parent's rows are sorted, and any sort that failed is noted. |
| `TreeFromMethod.HangLoops` | src/core/channel-tree.ts:113-134 | Marking what the top reaches and hanging the rest one by one gives the fold over the rows in input order. |
| `TreeFromMethod.HangTurn` | src/core/channel-tree.ts:124-134 | One row that is not reachable is taken out of its parent's list and hung last at the top. |
| `TreeFromMethod.SettleLists` | src/core/channel-tree.ts:136-139 | Empty lists go, and every order becomes the sibling before. |
| `TreeLoops.Mark` | src/core/channel-tree.ts:115-123 | Marking visits exactly what hangs below a channel, loops or not. |
| `TreeBuild.ReadRows` | src/core/channel-tree.ts:79-93 | One row an id, in the place of the id's first and with the value of its last; the id 0 is refused. |
| `TreeBuild.GroupRows` | src/core/channel-tree.ts:95-108 | A parent that is missing, or the channel itself, gives way to the top; the rows of each parent keep their input order. |
| `SiblingSort.SortSiblings` | src/core/channel-tree.ts:231-275 | The sort with its explicit stack gives the depth-first order of the predecessor pointers, then what no chain reaches, in input order. |
| `SiblingSort.Follow` | src/core/channel-tree.ts:242-265 | The stack visits what the recursive walk visits, in its order, from any state. |
| `SiblingSort.CollectFollowers` | src/core/channel-tree.ts:231-241 | Each channel is filed behind the sibling it names, or first when that is missing. |
| `SiblingChain.SortedPermutation` | src/core/channel-tree.ts:231-275 | Whatever the pointers say, the result lists every sibling once and nothing else. |
| `SiblingChain.SortOkIffChain` | src/core/channel-tree.ts:231-275 | The sort says all is well exactly when the pointers form one chain from the first sibling. |
| `SiblingChain.SortedInChain` | src/core/channel-tree.ts:231-275 | Then each sibling in the result names the one before it. |
| `TreeDraft.Apply` | src/core/channel-tree.ts:191-223 | Applying an event to a copy in place gives `Applied`; the tree given stays as it was, and the next is a forest. |
| `TreeDraft.Path` | src/core/channel-tree.ts:175-183 | The path runs from a top-level channel to the one asked for, each the parent of the next; empty for an id the tree does not hold. |
| `TreeDraft.Draft.Settle` | src/core/channel-tree.ts:278-284 | Each channel of a list is given the sibling before it as its order, and nothing else changes. |
| `TreeDraft.Draft.Insert` | src/core/channel-tree.ts:290-308 | The channel goes behind the sibling named, or last with the tree inconsistent. |
| `TreeDraft.Draft.Detach` | src/core/channel-tree.ts:311-322 | The channel leaves its parent's list, which is settled, or dropped when empty. |
| `TreeDraft.Draft.IsWithin` | src/core/channel-tree.ts:325-330 | True exactly when the channel is the ancestor or below it; it stops, as a forest has no loop. |
| `TreeDraft.Draft.Create` | src/core/channel-tree.ts:377-388 | A creation in place is `CreatedIn`. |
| `TreeDraft.Draft.Edit` | src/core/channel-tree.ts:390-405 | An edit in place is `EditedIn`. |
| `TreeDraft.Draft.Move` | src/core/channel-tree.ts:407-422 | A move in place is `MovedIn`. |
| `TreeDraft.Draft.Remove` | src/core/channel-tree.ts:424-438 | Removing a channel and, one by one, all below it, leaves the tree without that subtree; the recursion stops, as each call has a smaller subtree. |
| `TreeSteps.AppliedWellFormed` | src/core/channel-tree.ts:191-223 | Every event, whatever ids it carries, keeps the forest. |
| `TreeLaws.RunWellFormed` | src/core/channel-tree.ts:191-223 | So does every sequence of events. |
| `TreeLaws.ConsistentIff` | src/core/channel-tree.ts:377-438 | An event keeps the tree consistent exactly when it could be placed as it said. |
| `TreeLaws.RunConsistentIff` | src/core/channel-tree.ts:143-153 | Over a run the tree is consistent exactly as long as every event so far could be placed, and never again after one could not. |
| `TreeLaws.MoveEffect` | src/core/channel-tree.ts:407-422 | A move, also one aimed under the channel itself, keeps all channels and properties, changes one parent, carries the subtree, and lands behind the sibling named or last. |
| `TreeLaws.MoveKeepsSiblings` | src/core/channel-tree.ts:407-422 | A move leaves all other channels in their order, under every parent. |
| `TreeLaws.DeleteEffect` | src/core/channel-tree.ts:424-438 | A delete removes exactly the channel and its descendants and moves nothing else. |
| `TreeEffects.CreateEffect` | src/core/channel-tree.ts:377-388 | A creation adds one channel with the defaults and what the event says, behind the sibling named or last, and moves no other; one that was there under that id goes first with its subtree. |
| `TreeEffects.RenameEffect` | src/core/channel-tree.ts:390-402 | An edit without an order changes one channel's properties and nothing else, and two are one, the later over the earlier. |
| `TreeEffects.ReorderEffect` | src/core/channel-tree.ts:390-405 | An edit with an order also moves the channel among its siblings, and no other. |
| `TreeServer.StepRefines` | src/core/channel-tree.ts:33-45 | Each thing that happens on a server that keeps parent and predecessor, and the one event it sends, keep the tree equal to the server's listing and consistent. |
| `TreeServer.RunRefines` | src/core/channel-tree.ts:33-45 | So does every run of such things. |
| `TreeServer.IncrementalEqualsRebuild` | src/core/channel-tree.ts:33-45 | After any run the tree that followed the events equals the tree built from a fresh listing: channels, lists and consistency. |
| `TreeRoundTrip.RoundTrip` | src/core/channel-tree.ts:77-141 | The records of a tree, in any order, build that tree again, and consistent. |
| `TreeRoundTrip.BuildKeepsRows` | src/core/channel-tree.ts:77-141 | A list that is a tree keeps every record as it was. |
| `CommandTracking.CommandTracker.constructor` | src/client/commands.ts:54-63 | A new tracker holds no command and no row. |
| `CommandTracking.CommandTracker.Register` | src/client/commands.ts:65-78 | A command gets the next return code, not in use, and waits under it. |
| `CommandTracking.CommandTracker.Unregister` | src/client/commands.ts:80-82 | A command given up on is forgotten and nothing else changes. |
| `CommandTracking.CommandTracker.SignalWelcomeComplete` | src/client/commands.ts:85-88 | The gate opens and what came before is dropped. |
| `CommandTracking.CommandTracker.Expects` | src/client/commands.ts:91-97 | True exactly when some command in flight declared the name. |
| `CommandTracking.CommandTracker.Buffer` | src/client/commands.ts:100-104 | A row is held only past the gate and while a command is in flight. |
| `CommandTracking.CommandTracker.OfferCorrelated` | src/client/commands.ts:112-129 | A notification answers the first command that waits for that echoed value, as data or as its failure. |
| `CommandTracking.CommandTracker.Resolve` | src/client/commands.ts:131-149 | The command named takes its rows, and settles or waits for its correlated answer. |
| `CommandTracking.CommandTracker.DiscardBuffer` | src/client/commands.ts:151-153 | The rows held are dropped. |
| `CommandTracking.CommandTracker.Reset` | src/client/commands.ts:161-169 | Every command fails with the cause, once, and the counter goes on. |
| `CommandLaws.RunSound` | src/client/commands.ts:65-187 | In every run each command settles at most once, and never while it still waits. |
| `CommandLaws.CodesNeverRepeat` | src/client/commands.ts:65-78 | No return code is handed out twice, whatever resets are in between. |
| `CommandLaws.BufferIsDue` | src/client/commands.ts:100-104 | What is held is exactly the rows taken up since the last `error`, in the order they came. |
| `CommandSources.RowReachesOne` | src/client/commands.ts:131-187 | Whatever is settled carries the rows its command took at its own `error`, then what was offered to it, or nothing; and no row that came is in two of them. |
| `CommandLaws.EitherOrder` | src/client/commands.ts:106-149 | A correlated answer before or after the command's `error` gives the same result. |
| `CommandLaws.RunOwnCodes` | src/client/commands.ts:72-73 | A command that echoes its return code always waits for its own. |
| `CommandLaws.DecimalOnce` | src/client/commands.ts:72-73 | Two codes written alike are the same code. |
| `CommandLaws.EchoFindsOwn` | src/client/commands.ts:112-117 | So a notification that carries a code answers, of those that echo theirs, that command alone. |
| `CommandLink.StaleIsNothing` | src/client/commands.ts:166-168 | A row or `error` from an earlier connection finds no command and changes nothing. |
| `CommandLink.RunGood` | src/client/commands.ts:30-52 | Against a server that answers in order, what is held is always the answer under way, as far as it has come. |
| `CommandLink.AnsweredWithOwn` | src/client/commands.ts:30-52 | A command that is answered gets its own nameless rows, all of them and no other's, and of notifications only those it declared. |
| `CommandLink.NothingMissed` | src/client/commands.ts:45-52 | An answer that began past the gate is missing none of its rows. |
| `QueryClients.QueryClient.Send` | src/query/client.ts:1071-1075 | The command is the one on the wire. |
| `QueryClients.QueryClient.Leave` | src/query/client.ts:1122-1139 | A command left is counted as abandoned unless its `error` was read or its write failed. |
| `QueryClients.QueryClient.FailWrite` | src/query/client.ts:1113-1118 | A write that fails after the command was left takes it off the count. |
| `QueryClients.QueryClient.ReadError` | src/query/client.ts:1148-1201 | An `error` line is an abandoned answer's, or settles the command, or holds it for the rows it still lacks. |
| `QueryClients.QueryClient.ReadRows` | src/query/client.ts:1210-1230 | The rows of a line go to the command on the wire, but for those of abandoned answers and a stray one. |
| `QueryClients.QueryClient.EndHold` | src/query/client.ts:1174-1198 | A hold that ends gives the rows so far, and remembers the key of a row that never came. |
| `QueryLink.RunGood` | src/query/client.ts:1062-1231 | The invariant of every run, rows late or missing too: the counts match, and the rows the client has are those its command was sent, but for one taken for the stray. |
| `QueryLink.DueCount` | src/query/client.ts:1122-1152 | The `error` lines still to come are those of abandoned commands, and that of the command on the wire unless it is held. |
| `QueryLink.EveryAnswerKnown` | src/query/client.ts:1062-1231 | In every run each command that was settled was answered with what it was sent, late rows of earlier answers included and the first of the remembered key left out, or refused for that; and none is settled twice. |
| `QueryLink.ExactIff` | src/query/client.ts:1148-1230 | A command whose rows have all come is answered with exactly them if and only if no late row came to it and it lost none of its own, or the one late row was the stray. |
| `QueryLink.OwnRowsIff` | src/query/client.ts:1148-1230 | With rows that come in time, it is answered with exactly its own rows if and only if no key was remembered when it was sent, or its own answer carries it, or no row before its `error` has it alone. |
| `QueryLink.EveryAnswerIsOwn` | src/query/client.ts:1062-1231 | With rows that come in time and no create answered without its row, every command that resolves got exactly its own rows, and one refused is one the server refused, wherever commands were given up on. |
| `QueryLink.AnsweredWasSent` | src/query/client.ts:1062-1231 | Every command that was settled by an answer had reached the server. |
| `QueryLink.StrayKeptOut` | src/query/client.ts:1215-1223 | In every run, a late row that has the remembered key alone leaves the next command with exactly its own rows if and only if that command's own answer does not carry the key. |
| `QueryLink.RunCaused` | src/query/client.ts:1181-1191 | A key is only ever remembered for a create that was answered without its row. |
| `QueryLink.MissingRowCosts` | src/query/client.ts:1187-1223 | A run, in order and in time, in which a create gets no row and the next command so loses its only one. |
| `LifecycleLaws.RunGood` | src/client/client.ts:640-856 | The invariant of every life of a client, over every interleaving of its steps. |
| `LifecycleLaws.AttemptsEndOnce` | src/client/trace.ts:216-218 | Each attempt has at most one of `sessionStart` and `attemptFailed`, and exactly one once the client is disconnected. |
| `LifecycleLaws.SessionsEndOnce` | src/client/trace.ts:216-218 | Each session has at most one `sessionEnd`, and exactly one once the client is disconnected and its goodbye over. |
| `LifecycleLaws.StartsAfterTheEnd` | src/client/client.ts:647-660 | No attempt starts while a `disconnected` is undelivered, a goodbye is on, another attempt or its call is, or any continuation is still to run. |
| `LifecycleLaws.OneLoopRuns` | src/client/client.ts:2235-2240 | At most one reconnect loop runs. |
| `LifecycleLaws.AbandonedDoesNothing` | src/client/client.ts:737-741 | In every reachable state the continuation of an attempt that was given up finds its own attempt the latest, settled, and changes nothing; at most the attempt's call is ready then. |
| `LifecycleLaws.LateAbortDoesNothing` | src/client/client.ts:697-698 | Aborting the signal of a call whose attempt is settled changes nothing. |
| `LifecycleLaws.OrderMatters` | src/client/client.ts:2142-2167 | Were events delivered while continuations are still ready, there would be a run in which that of the first attempt fails the second. |
| `VoiceClients.VoiceClient.Connect` | src/client/client.ts:640-660 | `connect()` up to its first wait, or to the start of its attempt. |
| `VoiceClients.VoiceClient.GoOn` | src/client/client.ts:648-660 | A call goes on to wait for a delivery, to be refused, or to start the attempt. |
| `VoiceClients.VoiceClient.StartAttempt` | src/client/client.ts:657-662 | A new attempt, unsettled, with the client connecting. |
| `VoiceClients.VoiceClient.SettleAttempt` | src/client/client.ts:321-334 | An attempt settles as failed once and its hook is told; what waits for it is ready to go on, but the call of one that a goodbye gave up not before that is over. |
| `VoiceClients.VoiceClient.FailConnection` | src/client/client.ts:2337-2355 | A failure ends the attempt and announces it once, and never ends a session. |
| `VoiceClients.VoiceClient.MarkConnected` | src/client/client.ts:1387-1433 | Only the attempt in progress completes, into a session. |
| `VoiceClients.VoiceClient.EndSession` | src/client/client.ts:1494-1508 | A session in progress ends once. |
| `VoiceClients.VoiceClient.Disconnect` | src/client/client.ts:770-810 | The attempt is given up, the loop told to stop, and the goodbye begun, once. |
| `VoiceClients.VoiceClient.CloseAndAnnounce` | src/client/client.ts:849-855 | After the goodbye the session ends and `disconnected` is queued. |
| `VoiceClients.VoiceClient.AnnounceDisconnected` | src/client/client.ts:2099-2114 | `disconnected` is queued, and is what a connect waits for. |
| `VoiceClients.VoiceClient.Drain` | src/client/client.ts:2156-2167 | Everything queued is delivered in its order, and what waits for a `disconnected` among it is ready. |
| `VoiceClients.VoiceClient.ContinueAttempt` | src/client/client.ts:737-742 | An attempt whose lookup or socket was stopped fails the connection, and waits for its own end. |
| `VoiceClients.VoiceClient.EndRunning` | src/client/client.ts:742-745 | The call inside an attempt is over, and no longer listens to its signal. |
| `VoiceClients.VoiceClient.RunReady` | src/client/client.ts:802-809 | The continuation that was ready first runs: an attempt's, a call's, that of a delivery, or one of the two ends of a goodbye. |
| `VoiceClients.VoiceClient.HandleConnectionClosed` | src/client/client.ts:2169-2196 | A closed socket fails the attempt, or ends the session and may begin a reconnect loop. |
| `VoiceClients.VoiceClient.ScheduleReconnect` | src/client/client.ts:2235-2259 | A loop begins unless one runs or the client was told to stop. |
| `VoiceClients.VoiceClient.WakeLoop` | src/client/client.ts:2270-2291 | After its wait the loop ends, or calls connect. |
| `VoiceClients.VoiceClient.GoOnLoop` | src/client/client.ts:2293-2307 | With its answer the loop ends, or waits again. |
| `EventIteration.EventIterator.OnEvent` | src/client/client.ts:1183-1196 | An event answers the oldest waiting call, or is buffered, voice within its bound. |
| `EventIteration.EventIterator.AskNext` | src/client/client.ts:1225-1233 | A call is answered from the buffer, or at once when it is over, or waits. |
| `EventIteration.EventIterator.OnDisconnected` | src/client/client.ts:1198-1204 | Waiting calls are told it is over; what is buffered stays. |
| `EventIteration.EventIterator.OnAbort` | src/client/client.ts:1211-1217 | Waiting calls are rejected and what is buffered is thrown away. |
| `EventIteration.EventIterator.Return` | src/client/client.ts:1234-1239 | Waiting calls are told it is over and what is buffered is thrown away. |
| `EventIteration.RunGood` | src/client/client.ts:1162-1245 | Events and calls never both wait; calls are answered in order, once each, with events in order; every event was given, is buffered, was dropped or was thrown away. |
| `EventIteration.NothingLost` | src/client/client.ts:1144-1146 | Until it is returned or aborted, an iterator of any event but voice gives the first events, every one. |
| `PublishedStreams.PublishedStream.Request` | src/stream/published.ts:221-229 | A request gets a slot unless the client has a peer, a slot or a waiting request. |
| `PublishedStreams.PublishedStream.StartLookups` | src/stream/published.ts:232-247 | Every current slot has its answer or its lookup is out. |
| `PublishedStreams.PublishedStream.Advance` | src/stream/published.ts:232-256 | The line is announced from its head as far as lookups have answered. |
| `PublishedStreams.PublishedStream.Announce` | src/stream/published.ts:258-265 | A request is announced unless its viewer was denied before. |
| `PublishedStreams.PublishedStream.LookupAnswers` | src/stream/published.ts:243-247 | An answer goes to the slot it was asked for. |
| `PublishedStreams.PublishedStream.DropPending` | src/stream/published.ts:268-278 | A client's slot and waiting request are gone. |
| `PublishedStreams.PublishedStream.ViewerLeft` | src/stream/published.ts:281-284 | And its peer ends. |
| `PublishedStreams.PublishedStream.Close` | src/stream/published.ts:86-90 | A waiting request closes and says so; any other does not. |
| `PublishedStreams.PublishedStream.AcceptRequest` | src/stream/published.ts:98-122 | A waiting request is accepted and its peer made; any other is refused. |
| `PublishedStreams.PublishedStream.OpenViewer` | src/stream/published.ts:200-218 | The peer of a viewer let in. |
| `PublishedStreams.PublishedStream.EndPeer` | src/stream/peer.ts:134-141 | A peer closes once, is forgotten, and its viewer remembered within the bound. |
| `PublishedStreams.PublishedStream.Finish` | src/stream/published.ts:299-313 | All requests and peers close, once. |
| `PublishedRuns.RunGood` | src/stream/published.ts:137-313 | After any operations: announced in the order of arrival, one thing a client at most, nothing announceable stuck, every closed request and peer told so exactly once. |
| `PublishedRuns.LeavesOnce` | src/stream/published.ts:59-134 | A request that was answered, withdrawn or ended never waits again. |
| `PublishedLaws.DrainedGood` | src/stream/published.ts:248-255 | Announcing what can be announced leaves the head waiting for a lookup that is out. |
| `Emitting.Emitter.On` | src/stream/emitter.ts:28-45 | The first listener is given what was kept, in order. |
| `Emitting.Emitter.Emit` | src/stream/emitter.ts:47-62 | With listeners all are given it; with none it is kept within the bound, or lost. |
| `Emitting.RunGood` | src/stream/emitter.ts:12-63 | At most 256 wait, the latest, and only while nobody listens; all is given in order; what is dropped is more than 256 old. |
| `StreamRegistries.StreamRegistry.Learn` | src/stream/streams.ts:670-676 | A stream is started, updated or known already, and an orphan is none of these. |
| `StreamRegistries.StreamRegistry.End` | src/stream/streams.ts:760-786 | A stream is over for the list, its publisher here and its view, or the wait for one. |
| `StreamRegistries.StreamRegistry.Orphan` | src/stream/streams.ts:377-383 | A stream nobody waits for is remembered and over. |
| `StreamRegistries.StreamRegistry.Setup` | src/stream/streams.ts:323-374 | An announced stream is adopted, or stopped when its `publish` gave up, or refused when it was stopped already. |
| `StreamRegistries.StreamRegistry.Watch` | src/stream/streams.ts:402-424 | One watch a stream. |
| `StreamRegistries.StreamRegistry.OnRespond` | src/stream/streams.ts:678-714 | The publisher's answer settles the watch, and gives its view the early signals. |
| `StreamRegistries.StreamRegistry.OnSignaling` | src/stream/streams.ts:716-743 | A signal goes to the view, or waits for one within the bound. |
| `StreamRegistries.StreamRegistry.EndView` | src/stream/peer.ts:134-141 | A view closes once, whoever closes it. |
| `StreamRegistries.StreamRegistry.Reset` | src/stream/streams.ts:789-824 | Everything is closed and forgotten. |
| `StreamsLaws.EventsInTurn` | src/stream/streams.ts:670-786 | Each stream is started, updated any number of times and stopped, in turn; those listed are those started and not stopped, and never a remembered orphan. |
| `StreamsLaws.EachEndsOnce` | src/stream/streams.ts:402-464 | Each watch has one outcome, exactly one once it no longer waits; each view and published stream ends at most once. |
| `StreamsSignals.SignalsInOrder` | src/stream/streams.ts:708-743 | A view is given every signal that came for its watch, in that order, but for the oldest of those before its answer when these were more than 256. |
| `Preorder.Walk` | src/client/view.ts:318-328 | The recursive walk of the tree. |
| `Preorder.WalksTheTree` | src/client/view.ts:318-328 | It lists each channel exactly once, after its parent, and siblings in their order. |
| `ViewStores.ViewStore.SetClient` | src/client/view.ts:231-235 | Setting a client moves the revision. |
| `ViewStores.ViewStore.DeleteClient` | src/client/view.ts:237-241 | So does deleting one that is there. |
| `ViewStores.ViewStore.ClearRoster` | src/client/view.ts:243-247 | And clearing a roster that is not empty. |
| `ViewStores.ViewStore.Clients` | src/client/view.ts:388-396 | The clients are read from the snapshot of this revision, taken when there is none. |
| `ViewStores.ViewStore.Channels` | src/client/view.ts:379-384 | The channels are read from the walk of this tree, made when there is none. |
| `ViewStores.ViewStore.Reset` | src/client/view.ts:431-442 | A connection begins with an empty, loading view. |
| `ViewStores.ViewStore.Finish` | src/client/view.ts:472-488 | The tree is built, the view live, its revision announced and every waiter told. |
| `ViewStores.ViewStore.Change` | src/client/view.ts:510-520 | A live view's tree follows the event. |
| `ViewStores.ViewStore.DropChannel` | src/client/view.ts:527-532 | A channel's clients are forgotten, but not this client. |
| `ViewStores.ViewStore.Announce` | src/client/view.ts:455-460 | A revision is announced when it is not the last announced. |
| `ViewStores.ViewStore.End` | src/client/view.ts:598-609 | The view is stale and every waiter told. |
| `ViewStores.ViewStore.WhenReady` | src/client/view.ts:611-634 | A caller is told at once, or waits. |
| `View.ReadsAreCurrent` | src/client/view.ts:379-396 | In every run a read of `clients` is the roster as it is, and one of `channels` lists the tree as it is. |
| `View.RosterMovesRevision` | src/client/view.ts:223-248 | Two moments of one revision have one roster. |
| `View.AnnouncedRise` | src/client/view.ts:455-488 | The revisions announced strictly rise. |
| `View.EveryWaiterTold` | src/client/view.ts:472-634 | Once the view is live or stale everybody who asked was told, once each. |
| `Glob.WildcardMatch` | src/query/knownhosts.ts:68-90 | Backing up to the last `*` alone finds a match exactly when there is one: `*` any run, `?` one character. |
| `Glob.LaterStar` | src/query/knownhosts.ts:74-86 | No match is lost by never going back before the last `*`. |
| `KnownHosts.MatchPatterns` | src/query/knownhosts.ts:139-147 | A host field matches when one pattern does and no excluded one does. |
| `KnownHosts.Verify` | src/query/knownhosts.ts:232-256 | A key is accepted exactly when no line revokes it and a line without a marker records it for that host; the other verdicts say what failed. |
| `Lines.TrimCarriageReturns` | src/query/trim.ts:15-21 | Carriage returns are taken off both ends and nowhere else. |
| `Lines.LineReader.Push` | src/query/lines.ts:34-48 | A chunk gives the lines it completes and keeps the bytes after its last newline, or finds a line too long. |
| `Lines.LineReader.Add` | src/query/lines.ts:50-59 | A part is kept unless the line would be too long. |
| `Lines.ScanSplits` | src/query/lines.ts:34-48 | The lines have no newline, and joined by newlines, with the rest, are the bytes read. |
| `Lines.SplitUnique` | src/query/lines.ts:34-48 | There is one way to split bytes so. |
| `Lines.ChunkIndependence` | src/query/lines.ts:23-59 | However a stream is cut into chunks, the result is that of reading it at once. |
| `Lines.ReadStream` | src/query/lines.ts:23-59 | A reader that is given chunk after chunk gives what `PushAll` says of them. |
| `Lines.ReadsWholeStream` | src/query/lines.ts:23-59 | That is the lines of the stream, trimmed, and its rest; or a line is too long exactly when one of them is over the limit. |
| `Rows.ExpandParts` | src/core/helpers.ts:74-98 | The loop over the parts gives the rows of the fold, up to the budget. |
| `Rows.SplitCommandRows` | src/core/helpers.ts:63-101 | A line with no part to cut is itself a row, and so is one with nothing in its parts; any other is the rows of its parts. |
| `Rows.LastTokens` | src/core/helpers.ts:114-128 | The loop with its index gives `LastPerField`: one token a field, a later one in the place of an earlier. |
| `Rows.ResolveOverrides` | src/core/helpers.ts:107-111 | A resolved row says what the row before said, overridden by its own tokens. |
| `Rows.LastPerFieldKeeps` | src/core/helpers.ts:114-128 | What is carried on names each field once and says all that was said. |
| `RowLaws.TokensJoined` | src/core/helpers.ts:83-92 | The tokens of a row's text are the tokens it was made of. |
| `RowLaws.RowsAreOverrides` | src/core/helpers.ts:63-101 | As long as a line's rows inherit, its i-th row says exactly what all non-empty parts up to the i-th say, later over earlier, and none is dropped. |
| `RowLaws.GrowthBound` | src/core/helpers.ts:134-138 | The rows of a line of n characters hold at most twice the larger of 4n and 64 KiB, and at most 64n. |
| `RowLaws.OneRowPerPart` | src/core/helpers.ts:63-101 | A nameless batch of 2048 characters or more yields one row for each non-empty part, when there is one. |
| `Numbers.ReadsWhatFits` | src/core/helpers.ts:12-19 | A text of digits reads as the number it writes when that fits in 64 bits, and anything else as 0: the cut by length loses nothing. |
| `Pacing.Pacer.TryTake` | examples/flood-control.ts:49-69 | One turn of the retry loop: the tokens are taken, or the wait for them is named. |
| `Pacing.Pacer.Pause` | examples/flood-control.ts:43-46 | A pause holds everybody and spends what was saved. |
| `Pacing.WindowBound` | examples/flood-control.ts:43-69 | Between any two times at most a full bucket and what runs in between is granted, whatever is asked and however often it is paused. |
| `Pacing.NothingWhilePaused` | examples/flood-control.ts:43-69 | Nothing is granted before a pause is over. |
| `Pacing.WaitIsEnough` | examples/flood-control.ts:64-67 | Who waits as long as told, with nobody else asking, is granted at the next try. |

## Left out

- PublishedStreams.PublishedStream.Finish: closes the requests and peers that are kept in the order of their numbers; the source closes them in the insertion order of its maps. Which ones close, and how often, is the same.
- StreamRegistries.StreamRegistry.Reset: the same, for watches and published streams.
- CommandTracking.CommandTracker.Reset: fails the commands in the order of their codes, which is the insertion order of the source's map.
- EventIteration.RunGood: an event is its number in the order of arrival; what it carries is not looked at.
- Lines.LineReader.Push: lines are bytes; decoding them as UTF-8 is not part of this model.
- KnownHosts.Verify: the match of a hashed host field is a function given from outside; parsing the file, lower-casing, base64 and fingerprints are not part of this model.
- SiblingSort.Follow: the source's set of ids seen is what has been put out, so one list stands for both.
- Pacing.Pacer.TryTake: numbers are exact; the source rounds the wait up to a whole millisecond, which only lengthens it.
- View.ReadsAreCurrent: a map handed out is a value, so that it never changes afterwards is not a statement of its own.
- Channel ids are natural numbers; a channel's properties are the texts the server wrote, and reading them into numbers and flags is not part of this model.
- What a listener, hook, middleware, `shouldRetry` or lookup does inside the call that runs it: it is taken to act right after.
- Timers, sockets, promises and abort signals as mechanisms: a timeout, an abort, an answer or a closed socket is a step that may happen at any time.
- In `Query`, reading a transfer's status: any text of digits that is not all zeros is a failure; the source takes every text JavaScript reads as a non-zero integer.
- A `connect` that is refused for its address, or because its signal was aborted already, changes nothing and is not a step.
- The group lists and server properties of the view, which only move the revision.
- The `publish` calls of the stream registry, its `requeststreaminfo` questions and the grace timer after which a client's streams are gone; that a stream ends as gone is a step.
- Packets, the handshake, cryptography, address lookup, file transfer, SSH, HTTP, name tables, event types and error classes.
