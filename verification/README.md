# Verified models of komo

Dafny models of the parts of komo that keep a promise over whole runs, and proofs of those promises.
`dafny verify dfyconfig.toml` checks everything.

| files | what they model |
|---|---|
| `McpLink`, `McpHub`, `Glob` | an MCP server connection as a state machine over its tasks; the table of servers and the table of tool names under hot reload; name patterns |
| `Files`, `OutputHistory`, `ToolOutput`, `ToolOutputLives` | a disk that can stop anywhere; the tool-output store over it; whole histories of one attempt |
| `Utf8`, `Text`, `Sse` | the event stream's bytes: UTF-8 (section 4 of RFC 3629), the encoder and the incremental parser |
| `EventLog`, `EventServer`, `EventHub`, `EventClients`, `EventSystem` | one event-stream connection against a growing log, the broadcast hub, the two clients that resume, and all of them together |
| `TextCut`, `Resource`, `Projection` | cutting text to a byte budget; resource addresses; what the model is shown of a tool result |
| `RpcWire`, `Rpc` | length-prefixed frames; the connection that carries them |
| `Deliveries` | the delivery log |
| `WriteRetry` | optimistic write retry |
| `Installation`, `Unpacking`, `SelfUpdate` | what stands beside the program and what becomes of it when a new web shell is linked; the web members of an archive; the self-update |

## How things are modelled

- **Interleavings.** `McpLink`, `EventServer`, `Rpc` and `WriteRetry` are state machines with one step
  per point where the code can be interrupted. A theorem about every run is a theorem about every
  schedule. State that only records what happened (such as `owed`, `accepted`, `order`) is read by no step.
- **Objects that change.** The parser, the hub tables, the output store, the event hub, the web client,
  the delivery log and the updater are classes whose methods are proved against specification functions
  or against the change they make to the state.
- **Crashes.** Every disk operation takes the next fate from a plan; a process that dies is one for which
  every later fate is `Fails`. What holds after an operation for every plan therefore holds at every
  moment of it. A write that fails may leave any beginning of its data behind. A completed write is
  durable against the death of the process. The delivery log has the same kind of plan for the
  database, the platforms and the process. `Healthy` says that nothing goes wrong any more; under it
  the operations are proved to succeed, so a body that gives up early does not meet its contract.
- **Libraries are parameters.** JSON is an invertible codec, the content hash is injective, archives
  and program runs are functions. The forms of a UUID are those of version 1 of its library. The engine under `WriteRetry` refuses a commit if a row
  that was read has been written since.

## What the models found

- The parser keeps undecodable bytes. After one ill-formed character it never delivers anything again
  (`Sse.StalledForever`; `Sse.OneByteSilences` for a byte 0xFF), and that is the only way it can go mute
  (`Sse.StallsExactlyWhenIllFormed`).
- A live derived frame pushed before its own event makes the event disappear from that connection
  (`EventServer.DerivedAheadLosesItsEvent`). `publish_event` does push the event first
  (`EventHub.Hub.PublishEvent`), which is what the connection theorems assume of a run.
- When the read that follows a lag fails, the stream goes on with a hole
  (`EventServer.FailedCatchUpLosesAnEvent`), exactly if the overflow dropped an event that was wanted
  (`EventServer.FailedCatchUp`).
- The terminal delivers at least once: a derived frame can move its cursor back
  (`EventSystem.TerminalReplays`; `EventClients.ReplaysExactlyWhenBehind` says exactly when an event comes again).
- A write to an output stream that fails half-way, without the process dying, leaves bytes that are in
  the published file but not in its recorded size. The result is then published but never found
  (`ToolOutputLives.HalfFailedWrite`, `ToolOutput.FoundAfterPublish`). After a restart the bytes are counted.
- A publish that stops between a stream's rename and the document's leaves bytes the next publish does
  not include (`ToolOutputLives.PublishStoppedBetween`; `ToolOutput.PublishesEverything` gives the exact
  condition as long as no document is in place; after that the files do not say, `ToolOutput.FilesCannotTell`).
- An RPC caller that saw the connection open can enter the table after it was drained, and waits for its
  own time limit (`Rpc.LateEntryWaits`; `Rpc.DrainedForGood` says exactly when that can still happen).
- The address of an artifact loses space at the end of its path (`Projection.SpaceAtTheEndIsLost`), and a
  decimal identifier of 32 digits is taken for a UUID (`Resource.LongNumberIsTakenForAUuid`), so that an
  output address is not read back (`Projection.RecallLeadsBack` has the exact condition).
- `install_web` tests the text of the old `web` link and then removes what the text leads to, which need
  not be below `komo-web`. A link the updater made is safe (`Installation.OwnLinkClearsItsGeneration`). A
  link `komo-web` loses the generation just installed (`Installation.RootLinkLosesTheShell`), `komo-web/..`
  the whole folder with the program (`Installation.ParentLinkRemovesEverything`), `komo-web/../x` what is
  called `x` (`Installation.SiblingLinkRemovesTheSibling`). `Installation.NewShellIsFound` and
  `SelfUpdate.Updater.Update` have the exact conditions.

## Model

| member | source | states |
|---|---|---|
| `McpLink.NoLostRetry` | crates/komo-runtime/src/mcp.rs:443-512 | in every reachable state, if the link failed as the outcome of the first background connect or of a person's reconnect and the connection is not closed, some task is still in the retry procedure before its last re-check, or about to enter it |
| `McpLink.WhenARetryIsOwed` | crates/komo-runtime/src/mcp.rs:443-512 | over every run: a retry is owed if and only if some earlier step wrote the failure of the first connect or of a person's reconnect, and the link has been failed in every state since |
| `McpLink.NoFailureForgotten` | crates/komo-runtime/src/mcp.rs:443-512 | the same promise without the bookkeeping: after such a step, while the link stays failed and the connection open, a task is in the retry procedure or about to enter it |
| `McpLink.RetryCanHappen` | crates/komo-runtime/src/mcp.rs:461-494 | from every reachable state of an open connection the tasks already there can go on, with no help from outside, until a retry connects or the link owes none |
| `McpLink.FirstConnectFails` | crates/komo-runtime/src/mcp.rs:443-459 | a concrete run: the first connect fails, and a retry is owed |
| `McpLink.OneAtATime` | crates/komo-runtime/src/mcp.rs:475-494 | at most one task is ever inside the retry loop, at most one holds the link, and the loop's flag is set while a task is in it |
| `McpLink.LifeCycle` | crates/komo-runtime/src/mcp.rs:517-539 | once a close has had the lock the link is closed for good, even against a connect in flight; `Disconnected` is left only by a person's reconnect or by a close |
| `McpLink.ConnectWrites` | crates/komo-runtime/src/mcp.rs:712-760 | in every reachable state, what a connect writes: a success leaves the link at a session that nothing had to do with before and that lives; a demand to log in leaves it waiting, with the credentials tried, exactly if the server has logins; anything else leaves the failure; and a waiting call has that very session, or is over |
| `McpLink.NeverSeenBefore` | crates/komo-runtime/src/mcp.rs:732-736 | nor did any earlier state of the run have to do with that session |
| `McpLink.ConnectAnswers` | crates/komo-runtime/src/mcp.rs:703-731 | until it writes, a connect leaves the link as it is; if the connection was closed meanwhile, the link is closed and what was connected is let go |
| `McpLink.CallFinds` | crates/komo-runtime/src/mcp.rs:806-835 | what a call gets from each of the six links: a live session as it is; a new, failed or dead link, or one whose login has happened since, is connected anew with the credentials as they are; otherwise nothing |
| `McpLink.CallReconnects` | crates/komo-runtime/src/mcp.rs:806-835 | a call over such a link of an open connection gets a new, living session if connecting succeeds |
| `McpLink.WhoConnects` | crates/komo-runtime/src/mcp.rs:443-512 | exactly who starts to connect, and over which link |
| `McpLink.WhoElseWrites` | crates/komo-runtime/src/mcp.rs:517-539 | exactly who else writes the link, and what: a refused session that is still the link's, a person who disconnects, a close |
| `McpLink.RetryTurns` | crates/komo-runtime/src/mcp.rs:461-494 | how a retry goes round: flag, open and failed, sleep, lock, connect; whoever leaves clears the flag and looks once more; so no retry connects without having slept |
| `McpLink.OtherTurns` | crates/komo-runtime/src/mcp.rs:496-539 | the other tasks' steps: when a call asks for the link and reports its session refused, when a reconnect leaves a retry behind, when a disconnect takes the lock |
| `McpLink.DisconnectWorks` | crates/komo-runtime/src/mcp.rs:526-539 | a person who disconnects an open connection finds it disconnected |
| `McpLink.WishesBecomeTasks` | crates/komo-runtime/src/mcp.rs:334-364 | no wish touches the link by itself |
| `McpLink.LateCallsGetNothing` | crates/komo-runtime/src/mcp.rs:806-860 | a call that starts after `close` never holds a session and never connects |
| `McpLink.NoSessionAfterClose` | crates/komo-runtime/src/mcp.rs:806-860 | the same over runs: a call started when the connection is closed never has a session and never connects, whatever happens afterwards |
| `McpLink.StepOwedOk` | crates/komo-runtime/src/mcp.rs:461-494 | a task leaves the retry procedure only by handing the obligation over, by clearing it, or because the connection is closed |
| `McpLink.RunKeeps` | crates/komo-runtime/src/mcp.rs:334-364 | the invariant of link, flags, lock and tasks holds along every interleaving of connects, reconnects, calls, disconnects, closes and credential changes |
| `McpHub.ClaimsExactly` | crates/komo-runtime/src/mcp.rs:265-287 | a server claims exactly the names of the shape it can hand out |
| `McpHub.OwnNameClaimed` | crates/komo-runtime/src/mcp.rs:265-287 | every name a server hands out is claimed by it and is made of identifier characters, within the length limit |
| `McpHub.CleanIs` | crates/komo-runtime/src/mcp.rs:275-282 | a letter, digit, `_` or `-` stays, any other character becomes `_` |
| `McpHub.ToolNameExactly` | crates/komo-runtime/src/mcp.rs:268-273 | a tool has a name exactly if server and tool are at most 57 characters together; two tools of one server whose names may stand as they are have different ones |
| `McpHub.Hub.Snapshot` | crates/komo-runtime/src/mcp.rs:992-1000 | the list is exactly the connections in the table at that moment, each once, in the order of their names |
| `McpHub.Hub.NewTools` | crates/komo-runtime/src/mcp.rs:1213-1260 | from a list of connections that may be old: the names handed out and the table of names afterwards are those of the specification; every tool handed out belongs to an open connection that is in the table now under its name; the names of exactly the tools returned are added to what was handed out |
| `McpHub.Hub.Take` | crates/komo-runtime/src/mcp.rs:1213-1230 | what an open connection has ready is taken once; a closed one is left alone |
| `McpHub.Hub.Reconcile` | crates/komo-runtime/src/mcp.rs:1024-1077 | the table becomes the configuration: same keys, same configs; an unchanged server keeps its very connection; what left is closed and loses exactly its names, each with its reason, and exactly these are added to what was withdrawn; everything else keeps its owner |
| `McpHub.Hub.Retire` | crates/komo-runtime/src/mcp.rs:1036-1062 | one server leaves: closed, out of the table, its names and only its names withdrawn |
| `McpHub.Hub.ReloadAgain` | crates/komo-runtime/src/mcp.rs:1024-1077 | installing the configuration that is installed changes nothing: not the tables, not the connections, not the names |
| `McpHub.AnyUse` | crates/komo-runtime/src/mcp.rs:992-1260 | over any sequence of connects, reloads, listings and hand-outs, with lists however old: the names handed out are the names withdrawn and the names in the table, each as often; the table of servers is the configuration installed last; and open connections that were just asked have nothing left |
| `McpHub.MountSharesGrows` | crates/komo-runtime/src/mcp.rs:1213-1260 | what is handed out is sound and complete: names are only added, each new, unique and properly named and configured; and whatever an open connection had ready, wanted and nameable is registered afterwards |
| `McpHub.MountedFrom` | crates/komo-runtime/src/mcp.rs:1213-1260 | every tool handed out was ready on one of the connections asked |
| `McpHub.HandedOutIs` | crates/komo-runtime/src/mcp.rs:1224-1258 | what is handed out is not hidden, is listed by its configuration if that lists any, is read-only exactly if that says so, and is named after server and tool |
| `McpHub.NothingPassedOver` | crates/komo-runtime/src/mcp.rs:1224-1258 | and whatever may be handed out has its name taken afterwards |
| `McpHub.LedgerSplit` | crates/komo-runtime/src/mcp.rs:1036-1062 | the names of a table are those kept and those withdrawn, no more and no fewer |
| `McpHub.WithdrawnGrows` | crates/komo-runtime/src/mcp.rs:1036-1062 | what the table of names loses in a reload is what is reported withdrawn, each name once |
| `McpHub.WithdrawnBecause` | crates/komo-runtime/src/mcp.rs:1036-1062 | a withdrawn name is given with its server, and with whether that is still configured |
| `Glob.PatternIsParts` | crates/komo-kernel/src/protocol/config.rs:159-176 | a pattern with a star means: its first part at the beginning, and the others in order up to the end |
| `Glob.GlobMatches` | crates/komo-kernel/src/protocol/config.rs:160-176 | the greedy one-pass matcher decides exactly what the pattern means, for all patterns and texts |
| `Glob.FirstWillDo` | crates/komo-kernel/src/protocol/config.rs:168-174 | taking the first occurrence of a part never loses a match |
| `Glob.BestIsBest` | crates/komo-kernel/src/protocol/config.rs:132-149 | the rule chosen by pattern applies, no rule that applies is more specific, and it comes first among the equally specific |
| `Glob.ChooseMeans` | crates/komo-kernel/src/protocol/config.rs:132-149 | whose value a name gets: the rule for the very name; else, of the patterns with a star that match, the first with the most literal characters; else the default |
| `Glob.LiteralsAdd` | crates/komo-kernel/src/protocol/config.rs:143-145 | a pattern is as specific as it has characters, not counting stars |
| `Glob.ExactIsExact` | crates/komo-kernel/src/protocol/config.rs:138-140 | a rule for the very name is found if and only if there is one |
| `OutputHistory.FindsExactlyWhatWasPublished` | crates/komo-store/src/tool_output.rs:393-450 | in every consistent state: a result is found if and only if a publish of exactly this attempt renamed its document into place and the streams it names are on disk whole; and it is that publish's own result |
| `OutputHistory.WriteKeeps` | crates/komo-store/src/tool_output.rs:130-164 | bytes appended to a stream, whole or torn, keep files and history consistent |
| `OutputHistory.SetAsideKeeps` | crates/komo-store/src/tool_output.rs:525-552 | so does a stream's rename |
| `OutputHistory.PublishKeeps` | crates/komo-store/src/tool_output.rs:304-318 | so does the document's rename, which is the moment a result counts as published |
| `OutputHistory.BystanderKeeps` | crates/komo-store/src/tool_output.rs:304-314 | so does any write to a file that is neither a stream being written nor a document in place |
| `OutputHistory.EmptyDiskIsConsistent` | crates/komo-store/src/tool_output.rs:80-86 | the disk of a new session is consistent, and nothing is found on it |
| `ToolOutput.KeysAreApart` | crates/komo-store/src/tool_output.rs:104-108 | two attempts never share an entry in the table of open streams, although attempt numbers repeat |
| `ToolOutput.FileToolOutputStore.constructor` | crates/komo-store/src/tool_output.rs:80-86 | a new process over whatever the last one left, at whatever point it died, starts in a valid state with no open streams |
| `ToolOutput.FileToolOutputStore.Begin` | crates/komo-store/src/tool_output.rs:220-251 | for an attempt of this session the streams are exactly the files left behind, at their exact lengths; no file changes but the directory; on failure nothing is opened; on a healthy disk it succeeds exactly for this session |
| `ToolOutput.FileToolOutputStore.CreateDirSynced` | crates/komo-store/src/session_dir.rs:80-92 | the directory is there afterwards, or the failure is reported; nothing else changes |
| `ToolOutput.FileToolOutputStore.AdoptPartial` | crates/komo-store/src/tool_output.rs:470-486 | an open file with its length, or nothing if there is no file |
| `ToolOutput.FileOutputWriter.Stream` | crates/komo-store/src/tool_output.rs:130-164 | an accepted chunk is at the end of its own stream's file whole and counted once; a refused one may have left a beginning, which is not counted; no other file, stream or counter changes; without an entry nothing happens |
| `ToolOutput.FileToolOutputStore.FinishStream` | crates/komo-store/src/tool_output.rs:525-560 | the stream's file moves to its final name and is described by its counted size and the hash of its bytes; on failure it has moved or not, and nothing else changed |
| `ToolOutput.FileToolOutputStore.Publish` | crates/komo-store/src/tool_output.rs:253-334 | it stops somewhere or goes through. Through: the document in place records this call, this body and exactly the bytes that were in the `.partial` files, which are gone, and the result returned is the one that will be found. Stopped: nothing is published or lost, a stream is in its `.partial` file or whole under its final name, and what has moved is recorded as moved. Other attempts' files and history are as they were; the entry is gone in any case; on a healthy disk it goes through exactly if the attempt was begun |
| `ToolOutput.FileToolOutputStore.FindPublished` | crates/komo-store/src/tool_output.rs:393-450 | answers what the files say, and changes nothing |
| `ToolOutput.FileToolOutputStore.Open` | crates/komo-store/src/tool_output.rs:336-372 | gives a body only from the file with the referred hash, and does give it on a healthy disk when that file is intact and of this session |
| `ToolOutput.OpensToWhatWasPublished` | crates/komo-store/src/tool_output.rs:336-372 | the reference a publish returned opens to the body that was published, until the document is replaced |
| `ToolOutput.PublishesEverything` | crates/komo-store/src/tool_output.rs:220-334 | for an attempt without a document in place: a publish gives every byte that ever reached the stream, over any number of processes, exactly if there is no file under the stream's final name, or else that file and all that was moved before it is empty; otherwise what is missing is what stopped publishes moved, the last of it in that file |
| `ToolOutput.NotWhatTheDocumentSays` | crates/komo-store/src/tool_output.rs:220-334 | with a document in place: a stream's file that is not what the document says shows that bytes were moved and lost from a later publish |
| `ToolOutput.FilesCannotTell` | crates/komo-store/src/tool_output.rs:220-334 | but no test of the files is exact: the same bytes written and moved once more leave the files as they were, and are lost all the same |
| `ToolOutput.FoundAfterPublish` | crates/komo-store/src/tool_output.rs:393-450 | a result just published is found again if and only if its counters are right, that is, no refused write has left bytes since `begin`; otherwise nothing is found |
| `ToolOutput.FileToolOutputStore.PartialTail` | crates/komo-store/src/tool_output.rs:490-523 | the size `begin` would adopt, and the tail of the file |
| `ToolOutput.TailIsTheEnd` | crates/komo-store/src/tool_output.rs:507-523 | the reported tail is the end of the file, within the limit, and is cut short only to the first line start inside the limit |
| `ToolOutputLives.Attempt` | crates/komo-store/src/tool_output.rs:220-334 | any number of processes, with failures and deaths anywhere, then a publish: the stream is what was there before and then, chunk by chunk of every process, the whole chunk if it was accepted and a beginning of it if not; it is exactly the accepted chunks if no refused write left bytes; the recorded size is the length, and the result is found, exactly if none did in the last process; on a healthy disk every chunk is accepted and the publish succeeds |
| `ToolOutputLives.AnyUse` | crates/komo-store/src/tool_output.rs:80-450 | from an empty disk, for any use by any number of processes. With failures anywhere: what is found for an attempt was put in place by a publish of this very attempt, with the body it was given. With none: exactly the attempts that were begun and published are found, each with its last body and exactly the bytes written to each stream since it was last published |
| `ToolOutputLives.HalfFailedWrite` | crates/komo-store/src/tool_output.rs:157-163 | a concrete case: a write of two bytes fails after the first, and the result published next is not found |
| `ToolOutputLives.PublishStoppedBetween` | crates/komo-store/src/tool_output.rs:271-318 | a concrete case: a byte, a publish that stops between its renames, another byte; the next publish gives the second byte alone |
| `Sse.FrameParser.Push` | crates/komo-client/src/sse.rs:352-379 | the in-place parser says and becomes what the specification says, for every byte string and state |
| `Sse.FrameParser.Line` | crates/komo-client/src/sse.rs:381-405 | one line of the event stream, as the specification reads it |
| `Sse.FrameParser.Dispatch` | crates/komo-client/src/sse.rs:407-434 | an empty line ends the event: a frame, a retired or skipped position, or nothing; the fields are cleared |
| `Sse.PushTwice` | crates/komo-client/src/sse.rs:352-379 | two chunks or one: same messages, same state, from every state and for every cut |
| `Sse.ChunkingIrrelevant` | crates/komo-client/src/sse.rs:352-435 | any chunking gives what the bytes together give |
| `Sse.FreshParser` | crates/komo-client/src/sse.rs:352-379 | the decoded text is always the longest valid prefix of all bytes seen |
| `Sse.StalledForever` | crates/komo-client/src/sse.rs:352-379 | after one ill-formed character nothing is delivered any more, whatever follows |
| `Sse.OneByteSilences` | crates/komo-client/src/sse.rs:352-379 | a concrete case: a first byte 0xFF, and nothing is delivered |
| `Sse.StallsExactlyWhenIllFormed` | crates/komo-client/src/sse.rs:352-379 | and only then: a parser is mute for ever if and only if an ill-formed character waits in it |
| `Sse.RecordMeans` | crates/komo-gateway/src/sse.rs:180-184 | one encoded record is read as its own frame or position and leaves the parser as new |
| `Sse.HeartbeatMeansNothing` | crates/komo-gateway/src/sse.rs:202-204 | a heartbeat is read as nothing |
| `Sse.RoundTrip` | crates/komo-gateway/src/sse.rs:180-204 | encoded frames and heartbeats, however cut up, come out as exactly those frames in order |
| `Sse.FrameMeansItself` | crates/komo-gateway/src/sse.rs:180-198 | what the encoder writes for a frame is a record that is read back as that frame |
| `Sse.NamesOnTheWire` | crates/komo-gateway/src/sse.rs:186-197 | each kind of event has its own name on the wire |
| `Sse.UnreadableMoves` | crates/komo-client/src/sse.rs:415-432 | an item that cannot be read moves the cursor, quietly exactly if it is one of the two retired kinds |
| `Utf8.DecodeSplit` | crates/komo-client/src/sse.rs:352-368 | cutting bytes anywhere and carrying the undecoded rest over decodes the same text |
| `Utf8.DecodeEncode` | crates/komo-client/src/sse.rs:352-368 | decoding undoes encoding, and encoded text is valid |
| `Utf8.EncodeDecode` | crates/komo-client/src/sse.rs:352-368 | what is decoded is the longest valid prefix and nothing else |
| `Utf8.KnownCharacters` | crates/komo-client/src/sse.rs:352-368 | the examples of section 7 of RFC 3629 |
| `Utf8.IllFormedExactly` | crates/komo-client/src/sse.rs:356-366 | a beginning is ill-formed if and only if no continuation makes it a character |
| `Utf8.BoundaryMeansSplit` | crates/komo-kernel/src/projection.rs:388-405 | the byte test for a character boundary holds exactly where the text splits into two texts |
| `Utf8.BoundaryNear` | crates/komo-kernel/src/projection.rs:388-405 | a boundary is never more than three bytes away on either side |
| `EventServer.ConnectionServes` | crates/komo-gateway/src/http/v2/events.rs:122-217 | over every orderly run, however the reader lags: the raw events sent are the log after the cursor, in order, each once; no derived frame before its source; and without lag every derived frame pushed |
| `EventServer.ConnectionCatchesUp` | crates/komo-gateway/src/http/v2/events.rs:160-217 | once a connection has handled what it was given, the client has the whole log after its cursor |
| `EventServer.ConnectionCanCatchUp` | crates/komo-gateway/src/http/v2/events.rs:160-217 | and it can always get there: from every state of an orderly run, however it has lagged, the gateway's own steps lead to a point where the client has the whole log after its cursor |
| `EventServer.RunKeeps` | crates/komo-gateway/src/http/v2/events.rs:160-217 | the invariant behind it, step by step |
| `EventServer.DerivedAheadLosesItsEvent` | crates/komo-gateway/src/sse.rs:214-220 | a concrete run: a derived frame that precedes its own event makes the filter drop the event |
| `EventServer.FailedCatchUp` | crates/komo-gateway/src/http/v2/events.rs:185-205 | when the read after a lag fails: the client is served along every further orderly run if and only if every event the overflow dropped, and history had not covered, is one the client had asked to skip |
| `EventServer.FailedCatchUpLosesAnEvent` | crates/komo-gateway/src/http/v2/events.rs:185-205 | a concrete run: 257 events while the reader sleeps, a read that fails, and event 1 is never sent |
| `EventServer.DerivedBehindTheCursor` | crates/komo-gateway/src/http/v2/events.rs:160-217 | a concrete orderly run: a client that resumes from 2 is sent a derived frame numbered 1 |
| `EventHub.Hub.Subscribe` | crates/komo-gateway/src/sse.rs:67-74 | a new receiver joins the channel its session is published to; sweeping detaches no live receiver; afterwards exactly the sessions with a live receiver have a channel |
| `EventHub.Hub.DropReceiver` | crates/komo-gateway/src/sse.rs:67-74 | a receiver that goes away takes nobody else with it |
| `EventHub.Hub.Publish` | crates/komo-gateway/src/sse.rs:107-115 | every live receiver of the session gets the frame, at the end of its buffer, and nobody else; a full buffer loses its oldest frame and marks the reader |
| `EventHub.Hub.PublishEvent` | crates/komo-gateway/src/sse.rs:123-137 | every live receiver of the session hears the event and then its state frame; its buffer holds the newest that fit, and it is marked as lagging exactly if one had to go; nobody else notices |
| `EventHub.FramesOf` | crates/komo-gateway/src/sse.rs:123-177 | the event comes first, everything derived from it carries its number and session |
| `EventHub.TellsItsState` | crates/komo-gateway/src/sse.rs:139-177 | an event of a run tells the run's state, each event its own; a reclaimed run, other events, and events of no run tell none |
| `EventHub.Hub.Watch` | crates/komo-gateway/src/sse.rs:80-92 | one more guard, counted |
| `EventHub.Hub.DropViewer` | crates/komo-gateway/src/sse.rs:43-53 | one guard fewer, counted; the last one takes the entry with it |
| `EventHub.Hub.Viewers` | crates/komo-gateway/src/sse.rs:97-104 | the count is the number of live guards of the session |
| `EventHub.ResumesWhereItStopped` | crates/komo-gateway/src/sse.rs:207-212 | the number a client was given, sent back, is where it resumes |
| `EventHub.StartsWhereTold` | crates/komo-gateway/src/sse.rs:207-212 | without a readable number of its own a client starts where its address says |
| `EventClients.WebClient.Load` | packages/api/src/queries.ts:157-167 | paging while the log grows ends with the whole log at the last page, and the cursor at its end; with pages of at least one event it does end, before there are more pages than events |
| `EventClients.WebClient.OnFrame` | packages/api/src/sse.ts:44-53 | the page's cache and cursor after a frame |
| `EventClients.WebClient.OnError` | packages/api/src/sse.ts:55-61 | the delay waited doubles up to its cap, and a stopped subscription stays stopped |
| `EventClients.PageExtends` | crates/komo-gateway/src/http/v2/events.rs:100-119 | a page read after a prefix of the log extends it; the last page completes it |
| `EventClients.PageIsABeginning` | crates/komo-gateway/src/http/v2/events.rs:100-119 | a page is the beginning of what follows, as long as it may be, and says exactly whether there is more |
| `EventClients.WebConnection` | packages/api/src/queries.ts:188-196 | one connection extends the cached prefix by exactly the events it carried |
| `EventClients.WebExactlyOnce` | packages/api/src/queries.ts:152-216 | over any number of connects, cuts and reconnects the cache is a gap-free, duplicate-free prefix of the log, made of all that the connections carried and nothing else, and the cursor never falls |
| `EventClients.TermConnection` | crates/komo-client/src/sse.rs:265-327 | one connection of the terminal leaves no hole below its cursor |
| `EventClients.TermHasAll` | crates/komo-client/src/sse.rs:265-327 | the terminal has all that its connections carried, and its cursor is the number of the last of it |
| `EventClients.TermNoHoles` | crates/komo-client/src/sse.rs:185-252 | nor does any number of them |
| `EventClients.ReplaysExactlyWhenBehind` | crates/komo-client/src/sse.rs:320-325 | after any connections, the next event a new one carries is one the terminal has had if and only if its number is not above the highest the terminal has come to; that is, when that is an event's number, if and only if the cursor stands below it |
| `EventSystem.WebEndToEnd` | packages/api/src/queries.ts:152-216 | gateway runs, cuts and page together: what the page shows is a gap-free, duplicate-free prefix of the log |
| `EventSystem.PageCanBeComplete` | packages/api/src/queries.ts:152-216 | from wherever the page's cache stands, one more connection can give it the rest of the log |
| `EventSystem.TermEndToEnd` | crates/komo-client/src/sse.rs:185-252 | gateway runs, cuts and terminal together: nothing between its first cursor and its present one is missing |
| `EventSystem.TerminalCanHaveAll` | crates/komo-client/src/sse.rs:185-252 | the terminal can be given all that there is after where it started |
| `EventSystem.TerminalReplays` | crates/komo-client/src/sse.rs:320-325 | a concrete run of gateway and terminal: a derived frame moves the cursor from 2 to 1, and event 2 comes again |
| `TextCut.Boundary` | crates/komo-kernel/src/projection.rs:390-396 | the loop finds the largest boundary within the limit |
| `TextCut.BoundaryRev` | crates/komo-kernel/src/projection.rs:399-405 | the loop finds the smallest boundary from the floor |
| `TextCut.FloorIsLargest` | crates/komo-kernel/src/projection.rs:389-396 | largest in reach, and in valid text at most three bytes short |
| `TextCut.CeilIsSmallest` | crates/komo-kernel/src/projection.rs:398-405 | smallest in reach, and in valid text at most three bytes past |
| `TextCut.HeadEndIsGood` | crates/komo-kernel/src/projection.rs:361-373 | within the budget, on a boundary, at least half of the largest cut; on a line end if one lies in that half, and then the last one |
| `TextCut.TailStartIsGood` | crates/komo-kernel/src/projection.rs:375-387 | the same at the other end, with the first line start |
| `TextCut.ExcerptAccounts` | crates/komo-kernel/src/projection.rs:340-351 | head, omitted and tail are the whole text without overlap; it is cut if and only if it does not fit; both ends are within budget and valid text |
| `Projection.FullViewIsBounded` | crates/komo-kernel/src/projection.rs:120-138 | the full view is at most the larger of header and limit and one byte, besides the notice, recall, artifact and image lines |
| `Projection.ShownWholeExactly` | crates/komo-kernel/src/projection.rs:120-131 | a text is shown whole exactly if header and text fit a limit of at most 30 KiB and it has at most 2000 lines |
| `Projection.RecalledExactly` | crates/komo-kernel/src/projection.rs:132-134 | where the complete output is gets said exactly if the text was cut, or missing, or less than the streams hold |
| `Projection.LinesAreLineEnds` | crates/komo-kernel/src/projection.rs:126-126 | the lines of a text are its line ends, and one more for what stands behind the last |
| `Projection.PreviewBudget` | crates/komo-kernel/src/projection.rs:175-200 | the preview is at most 2 KiB and fits behind the header |
| `Projection.HeaderReads` | crates/komo-kernel/src/projection.rs:214-229 | the first line, for the facts of one of the repository's tests |
| `Projection.RecallReads` | crates/komo-kernel/src/projection.rs:239-260 | the line with the addresses of the result and of the streams there are |
| `Projection.NoticesSay` | crates/komo-kernel/src/projection.rs:144-200 | which numbers the notices give |
| `Projection.OmittedSays` | crates/komo-kernel/src/projection.rs:188-204 | the number of bytes left out can be read off its notice |
| `Projection.NothingIsLeftOutSilently` | crates/komo-kernel/src/projection.rs:120-138 | a view without the recall line holds the whole text and the streams hold no more; a view that does not hold the whole text is a prefix, then what was cut out of how much, then where the rest is |
| `Projection.ShortViewIsHonest` | crates/komo-kernel/src/projection.rs:144-173 | a short view exists exactly for a completed result above the threshold whose short form is at least 1024 bytes shorter; it always says where the complete output is, and shows two ends with the exact number of bytes between them |
| `Projection.SelectSaves` | crates/komo-kernel/src/projection.rs:110-115 | choosing never makes the text longer; without a short view it is the full one |
| `Projection.ViewsAreText` | crates/komo-kernel/src/projection.rs:110-173 | no view cuts a character apart |
| `Projection.RecallLeadsBack` | crates/komo-kernel/src/projection.rs:262-284 | the address shown for a stored file reads back as the address of that very file, if and only if each identifier is a UUID as it is printed, or a decimal number not of 32 digits |
| `Projection.ArtifactAddress` | crates/komo-kernel/src/projection.rs:294-303 | an artifact has an address exactly if no part of its path, less the space at its end, could leave the folder; the address is that path |
| `Projection.SpaceAtTheEndIsLost` | crates/komo-kernel/src/projection.rs:294-303 | a concrete case: a path that ends in a space has the address of the path without it |
| `Resource.OutputReadsBack` | crates/komo-kernel/src/types/resource.rs:249-330 | printing and reading an output address are inverse exactly if each identifier is a UUID as it is printed, or a decimal number not of 32 digits |
| `Resource.ReadingLeavesAlone` | crates/komo-kernel/src/types/resource.rs:249-330 | the condition on the characters is exact: reading an identifier gives it back as it was if and only if it is hyphenated lower-case hexadecimal of 36 characters, or digits other than 32 of them |
| `Resource.UuidForms` | crates/komo-kernel/src/types/resource.rs:249-300 | a UUID is read from each of its four forms as what it prints as |
| `Resource.UuidNoOther` | crates/komo-kernel/src/types/resource.rs:249-300 | and from no other form |
| `Resource.LongNumberIsTakenForAUuid` | crates/komo-kernel/src/types/resource.rs:249-330 | every decimal identifier of 32 digits comes back with hyphens in it |
| `Resource.PathsAndAddresses` | crates/komo-kernel/src/projection.rs:271-284 | every path the store writes gives its address, and the address gives the path |
| `Resource.FilesOfAnOutput` | crates/komo-kernel/src/types/resource.rs:52-92 | the file names of an output |
| `Resource.AddressesAreNotInvented` | crates/komo-kernel/src/projection.rs:268-284 | a path that yields an address starts with the path that address stands for |
| `Resource.AcceptedPrintsBack` | crates/komo-kernel/src/types/resource.rs:158-330 | whatever is accepted prints as an address accepted as the same resource, unchanged but for surrounding space and canonical identifiers |
| `Resource.PrintedReadsBack` | crates/komo-kernel/src/types/resource.rs:158-330 | every resource whose parts are in order can be addressed, and is read back as itself |
| `Resource.NothingEscapes` | crates/komo-kernel/src/types/resource.rs:198-210 | nothing that is accepted has a part `.` or `..` or an empty one; an address with one is refused for that |
| `Resource.RefusedExactly` | crates/komo-kernel/src/types/resource.rs:219-330 | which other addresses are refused, and with which error |
| `RpcWire.ReadLoop` | crates/komo-channel/src/rpc.rs:104-131 | the reader's loop over a stream computes the frames in it |
| `RpcWire.ReadsWhatIsWhole` | crates/komo-channel/src/rpc.rs:104-131 | whole frames and a beginning of one more: exactly the whole ones are read, in order, and none is refused for size |
| `RpcWire.AnyCutReadsAPrefix` | crates/komo-channel/src/rpc.rs:83-98 | whatever byte the stream stops at, the peer has a prefix of what was sent |
| `RpcWire.Be32RoundTrip` | crates/komo-channel/src/rpc.rs:86-106 | the length in front of a frame is read as it was written |
| `RpcWire.FrameLimit` | crates/komo-channel/src/rpc.rs:104-112 | the limit of a frame is 1 MiB for writer and reader |
| `Rpc.PeerReads` | crates/komo-channel/src/rpc.rs:83-99 | the peer reads exactly the frames written whole, a prefix of those accepted; none is missing while the stream stands but those queued |
| `Rpc.WriteGivesTheNext` | crates/komo-channel/src/rpc.rs:83-99 | one write gives the peer the next frame and only that |
| `Rpc.EveryRun` | crates/komo-channel/src/rpc.rs:50-195 | along every run: at most 64 entries, each of a live call without an answer, and the peer has exactly what was written whole |
| `Rpc.AnsweredOnce` | crates/komo-channel/src/rpc.rs:121-130 | a call is answered at most once, by the reply with its number or by the end of the connection, and only while it waits |
| `Rpc.ReplyAnswers` | crates/komo-channel/src/rpc.rs:121-130 | a reply answers the call that waits for it, takes exactly its entry, and touches no other; one that nobody waits for is dropped |
| `Rpc.AnsweredExactly` | crates/komo-channel/src/rpc.rs:54-60 | over every run: a call has an answer if and only if its reply arrived, or the connection ended, while it was in the table |
| `Rpc.DrainAnswers` | crates/komo-channel/src/rpc.rs:50-55 | the end of the connection answers everyone who waits, and nobody else |
| `Rpc.RegisterExactly` | crates/komo-channel/src/rpc.rs:178-186 | a call enters the table exactly if fewer than 64 are in it |
| `Rpc.QueueIsBounded` | crates/komo-channel/src/rpc.rs:83-99 | over every run at most 65 frames wait to be written |
| `Rpc.QueuedOnce` | crates/komo-channel/src/rpc.rs:140-160 | a call queues its frame once |
| `Rpc.EndLeavesNothing` | crates/komo-channel/src/rpc.rs:57-72 | a call that ends leaves no entry and takes nobody along |
| `Rpc.CallGoesThrough` | crates/komo-channel/src/rpc.rs:161-202 | an open connection with room serves a call: its frame is queued behind the others and the reply is its answer |
| `Rpc.ClosedForGood` | crates/komo-channel/src/rpc.rs:50-55 | once closed, drained and with no caller on its way in, no call is numbered, registered or answered again |
| `Rpc.DrainedForGood` | crates/komo-channel/src/rpc.rs:50-185 | the table of a closed connection, once drained, stays empty along every continuation if and only if no caller is on its way in |
| `Rpc.LateEntryWaits` | crates/komo-channel/src/rpc.rs:164-185 | a concrete run: a caller that looked before the close can enter the table after it was drained, and waits for its own time limit |
| `Deliveries.DeliveryLog.RecordOnce` | crates/komo-store/src/repos/deliveries.rs:69-201 | the row with this number, or one for the same notification to the same place, or a new one; no two rows ever carry the same key to the same place |
| `Deliveries.KeyTellsApart` | crates/komo-store/src/repos/deliveries.rs:69-87 | two messages have the same key if and only if they are the same kind of news of the same run of the same session; only a plain one has none |
| `Deliveries.LegacyExactly` | crates/komo-store/src/repos/deliveries.rs:118-150 | a row from before there were keys matches exactly a message of the same kind about the same run, except an absorbed one |
| `Deliveries.DeliveryLog.Attempt` | crates/komo-gateway/src/deliveries.rs:143-189 | at most one message goes out, and the answer says sent exactly if a platform took it |
| `Deliveries.DeliveryLog.SendLocked` | crates/komo-gateway/src/deliveries.rs:104-141 | a row that says sent is not sent again |
| `Deliveries.DeliveryLog.PendingIds` | crates/komo-store/src/repos/deliveries.rs:249-285 | exactly the unsettled rows, each once, in order |
| `Deliveries.DeliveryLog.Deliver` | crates/komo-gateway/src/deliveries.rs:59-73 | the row written first is for this message, place and notification, or is the one there was for it; that row is sent and no other; the answer is that row's; a message about another run, session or kind than every row of the place makes a new row, which on a healthy outside the platform takes exactly once; one about the same makes none |
| `Deliveries.DeliveryLog.DeliverKeyed` | crates/komo-gateway/src/deliveries.rs:75-89 | the same, with the notification's key given: the same notification goes by the same row; no row is lost or changed in what it is |
| `Deliveries.DeliveryLog.SendRecorded` | crates/komo-gateway/src/deliveries.rs:92-101 | the row as it stands now decides, not the caller's old copy |
| `Deliveries.DeliveryLog.Flush` | crates/komo-gateway/src/deliveries.rs:209-268 | each unsettled row in scope is tried once; the count is the number of messages taken; on a healthy outside none is left |
| `Deliveries.NotifyTwice` | crates/komo-gateway/src/deliveries.rs:75-89 | a notification repeated after any other uses of the log, crashes and passes included, keeps to one row |
| `WriteRetry.Retry` | crates/komo-store/src/db.rs:236-264 | one call runs at most `max_retries + 1` transactions, stops at the first that is no conflict, answers with the last, and waits as scheduled in between |
| `WriteRetry.BackOffIsMonotone` | crates/komo-store/src/db.rs:65-73 | the wait is monotone, capped, and doubles until it reaches the cap or the sixteenth doubling |
| `WriteRetry.BackOffExactly` | crates/komo-store/src/db.rs:65-73 | the first wait is the base, each of the next sixteen twice the one before, all up to the cap and the largest duration; then they stay |
| `WriteRetry.CommitIsAlone` | crates/komo-store/src/db.rs:236-250 | a commit that is accepted does what the closure alone would do to the rows as they are |
| `WriteRetry.WritesApplyOnce` | crates/komo-store/src/db.rs:229-264 | for any interleaving the rows are the closures of exactly the callers that answered Ok, once each in commit order; each got its own answer; none ran more often than allowed |
| `WriteRetry.LastWriteStands` | crates/komo-store/src/db.rs:236-250 | over every run, row by row: a row holds what the last accepted commit that wrote it was asked to write there, and what it held at first if none did |
| `WriteRetry.RowsAfter` | crates/komo-store/src/db.rs:244-250 | an accepted commit leaves in each row what it was asked to write and every other row as it was; no other step changes a row |
| `WriteRetry.OrderIsOfCommits` | crates/komo-store/src/db.rs:236-250 | the order of the serial result is the order of the accepted commits |
| `WriteRetry.AcceptedExactly` | crates/komo-store/src/db.rs:236-250 | a commit is accepted if and only if no row the transaction has read has been written by an accepted commit since |
| `WriteRetry.CommitEnds` | crates/komo-store/src/db.rs:251-262 | what becomes of the caller of an accepted and of a refused commit |
| `WriteRetry.OwnAffair` | crates/komo-store/src/db.rs:251-262 | any other step changes its own caller only: a conflict starts it over while it may, another error ends it |
| `WriteRetry.UndisturbedSucceeds` | crates/komo-store/src/db.rs:229-264 | a caller that nobody disturbs can go on to the answer and the rows its closure gives alone |
| `SelfUpdate.TagsAreRead` | crates/komo/src/update.rs:339-352 | a tag, with or without its `v`, is read as the version it prints |
| `SelfUpdate.VersionsAreOrdered` | crates/komo/src/update.rs:63-71 | versions are in a strict total order in which a patch, a minor and a major step go up, whatever the parts behind them |
| `SelfUpdate.VersionsAsNumbers` | crates/komo/src/update.rs:63-71 | it is the order of the versions as numbers in a large enough base |
| `SelfUpdate.SumsAreRead` | crates/komo/src/update.rs:409-417 | the list that `sha256sum` writes gives each file its own digest |
| `SelfUpdate.Updater.Extract` | crates/komo/src/update.rs:421-487 | each of the four programs from the only member of its name, and the web folder from its members in order, nothing else; success means all that, and on a healthy disk a clear staging name and such an archive mean success |
| `SelfUpdate.Updater.Stage` | crates/komo/src/update.rs:137-166 | success means checksum, uniqueness and version probe passed for all four programs; nothing that runs was touched; on a healthy disk it succeeds exactly for such a release |
| `SelfUpdate.VettedSays` | crates/komo/src/update.rs:137-166 | what it takes: the archive has the listed digest; the program and each plugin is the content of the one member of its name, a plain file; and each said, when run, that it is the version of the tag |
| `SelfUpdate.GoodRelease` | crates/komo/src/update.rs:137-166 | there are releases that pass every check, for every version |
| `SelfUpdate.Updater.InstallPlugins` | crates/komo/src/update.rs:168-188 | the version's plugins are the staged set, or its link is unchanged |
| `SelfUpdate.Updater.InstallWeb` | crates/komo/src/update.rs:190-229 | exactly what becomes of every place on a healthy disk: the staged folder is the new generation, the link leads to it, and what the link's text led to before is removed, if that text starts with `komo-web`. On any disk: every place is as it was unless that removal takes it; and if the removal spares the shell, the link is as it was or leads to the whole new one |
| `Installation.FollowedExactly` | crates/komo/src/update.rs:222-228 | a link is followed if and only if the first part of its text is `komo-web`; otherwise a new shell changes nothing but its own |
| `Installation.PlacesAreApart` | crates/komo/src/update.rs:107-114 | what the updater stages, keeps and replaces stands in different places |
| `Installation.NewShellIsFound` | crates/komo/src/update.rs:222-228 | after a complete `install_web` the gateway finds the new shell if and only if what the link led to was none of the link itself, the new generation, a folder with either below it, or a folder in the new generation |
| `Installation.OwnLinkClearsItsGeneration` | crates/komo/src/update.rs:222-228 | after a link as the updater makes it, exactly the generation it led to is removed |
| `Installation.InsideSpares` | crates/komo/src/update.rs:222-228 | a removal below `komo-web` touches nothing but generations |
| `Installation.RootLinkLosesTheShell` | crates/komo/src/update.rs:222-228 | a link `komo-web`: every generation is removed, the new one too |
| `Installation.ParentLinkRemovesEverything` | crates/komo/src/update.rs:222-228 | a link `komo-web/..`: nothing of the installation is left |
| `Installation.SiblingLinkRemovesTheSibling` | crates/komo/src/update.rs:222-228 | a link `komo-web/../komo-plugins`: no program finds its plugins |
| `SelfUpdate.Updater.Install` | crates/komo/src/update.rs:97-135 | the program is the old one or the vetted one, if the removal spares the program; it has its own three vetted plugins, other versions keep theirs, and the web shell stays whole, each if the removal spares them; on a healthy, clear disk each of these conditions is exact; and a release that is refused leaves nothing staged behind |
| `SelfUpdate.Updater.Update` | crates/komo/src/update.rs:51-81 | the same, and the first part in which the tag's numbers differ from the installed ones is greater; on a healthy, clear disk it is installed exactly if it is newer in that sense, passes every check, and the removal does not take the whole folder |
| `Deliveries.AnyUse` | crates/komo-gateway/src/deliveries.rs:58-268 | for every sequence of deliveries, passes and restarts: no row is lost, a row that says sent stays as it is and is not sent again, and a platform takes each delivery at most once more than its outcome was lost; with nothing going wrong, what was to be delivered, flushed or sent again says sent |
| `Deliveries.DeliveryLog.FindNotification` | crates/komo-store/src/repos/deliveries.rs:118-167 | finds a row for the same notification to the same place if and only if there is one, by key or, for rows without one, by run |
| `Deliveries.DeliveryLog.Settle` | crates/komo-store/src/repos/deliveries.rs:205-235 | the outcome is written down with one more attempt, or nothing changes |
| `Deliveries.DeliveryLog.Took` | crates/komo-gateway/src/deliveries.rs:165-171 | a message taken counts once, and as unsaved if its outcome could not be written down |
| `Deliveries.DeliveryLog.TryOne` | crates/komo-gateway/src/deliveries.rs:219-238 | one row of a pass: only rows in scope are tried, only this row changes, and the count says whether it was taken |
| `Deliveries.DeliveryLog.SendAll` | crates/komo-gateway/src/deliveries.rs:219-238 | a pass tries each row once, and its count is the number of messages taken |
| `EventHub.Hub.Sweep` | crates/komo-gateway/src/sse.rs:69-69 | afterwards exactly the sessions with a live receiver have a channel, and each keeps its own |
| `EventHub.Hub.Open` | crates/komo-gateway/src/sse.rs:70-72 | the session has a channel, the one it had before if there was one |
| `EventHub.Hub.Join` | crates/komo-gateway/src/sse.rs:73-73 | a fresh receiver, listening from now on, and nobody else changes |
| `EventHub.Hub.Send` | crates/komo-gateway/src/sse.rs:112-114 | every listener buffers the frame, in order |
| `McpHub.Hub.Register` | crates/komo-runtime/src/mcp.rs:1224-1258 | one connection's tools are registered as the specification says |
| `McpHub.Hub.RegisterOne` | crates/komo-runtime/src/mcp.rs:1224-1258 | a tool that is hidden, unwanted, unnameable or whose name is taken is skipped; any other is registered to its server and handed out |
| `McpHub.Hub.RetireAll` | crates/komo-runtime/src/mcp.rs:1033-1059 | exactly the servers that are no longer configured as they are leave the table, closed, with their names |
| `McpHub.Hub.Admit` | crates/komo-runtime/src/mcp.rs:1060-1076 | what is missing is added fresh with its configuration, what is there stays the same connection |
| `ToolOutput.FileToolOutputStore.OpenStream` | crates/komo-store/src/tool_output.rs:147-156 | the stream's file is there and open; what was in it stays |
| `ToolOutput.FileToolOutputStore.Append` | crates/komo-store/src/tool_output.rs:157-163 | the chunk goes to the end of that file, whole and counted, or in part and not counted |
| `ToolOutput.FileToolOutputStore.FinishStreams` | crates/komo-store/src/tool_output.rs:271-287 | it may stop between the two streams, and then each is in its `.partial` file or whole under its final name, as the history says; success means no stream is left in `.partial` and each is described by its count and its bytes |
| `ToolOutput.FileToolOutputStore.WriteDocument` | crates/komo-store/src/tool_output.rs:301-318 | the document is published in one step or not at all; success means it is; no stream is touched |
| `ToolOutput.FileToolOutputStore.CheckStream` | crates/komo-store/src/tool_output.rs:416-436 | a named stream passes exactly if it is on disk at that size, with that hash, under that name |
| `Projection.EveryArtifactIsNamed` | crates/komo-kernel/src/projection.rs:294-303 | every artifact that has an address is named with it in the view's last lines |
| `Projection.ArtifactLineReads` | crates/komo-kernel/src/projection.rs:294-303 | the line gives the address, which is the path, and the size |
| `Projection.EveryImageIsNamed` | crates/komo-kernel/src/projection.rs:305-320 | every image is named, with its kind and size |
| `Rpc.RunKeeps` | crates/komo-channel/src/rpc.rs:50-195 | the invariants of table and stream hold along every run |
| `SelfUpdate.SumLine` | crates/komo/src/update.rs:409-417 | a line of that list is read as its digest and its name |
| `SelfUpdate.Updater.Download` | crates/komo/src/update.rs:356-380 | success means the archive is on disk whole; nothing else is touched |
| `SelfUpdate.Updater.ExtractWeb` | crates/komo/src/update.rs:460-487 | a file or folder below the web folder, and nothing outside it; on a healthy disk refused exactly if it is neither, goes up, or finds a file where it needs a folder or the other way round |
| `Unpacking.UnpacksExactly` | crates/komo/src/update.rs:460-487 | all web members of an archive can be put in place if and only if each is a file or folder whose path only goes down, and of no two is one a file where the other needs a folder, in whatever order; then the folder can be read off the members, a file holding what the last of its path holds |
| `Unpacking.FitsExactly` | crates/komo/src/update.rs:460-487 | one member fits what is there if and only if it clashes with none before it |
| `Unpacking.WebMembersExactly` | crates/komo/src/update.rs:431-437 | exactly the member `web` and those below `web/` are the web folder's, by the path that follows |
| `Unpacking.PartsOf` | crates/komo/src/update.rs:465-473 | of a path every part counts but empty ones and `.` |
| `SelfUpdate.Updater.ExtractProgram` | crates/komo/src/update.rs:438-450 | a program is written to its own place, and refused if it is not a plain file or not the first of its name |
| `SelfUpdate.Updater.ProbePlugins` | crates/komo/src/update.rs:158-164 | passes exactly if every plugin says it is this release |
| `SelfUpdate.Updater.RemovePrevious` | crates/komo/src/update.rs:222-228 | what a complete removal would leave alone is left alone; files and links go whole or not at all; on a healthy disk exactly what lies at or below the path is gone, but a file at the path itself stays |
| `WriteRetry.StepKeeps` | crates/komo-store/src/db.rs:236-264 | every step of every caller keeps: rows are the serial result of the callers in commit order |

## Left out

- Cancelling `McpConnection::reconnect` half-way, waiting for startup, status views and metrics; how long a background retry sleeps.
- The order in which a reload walks its tables; `toolExposure` rules are taken in the order of their patterns.
- MCP transports and secrets are one opaque value of a server's configuration.
- Images in tool output and reading them back; lossy decoding of the reported tail.
- Directories inside a session are named by their three components; identifiers are taken to be single path components.
- A file handle that has accepted a chunk is taken to have written it; two stores open over one session at the same time; lost page cache.
- Two overlapping `begin` and `publish` of the very same attempt.
- ToolOutput.FileToolOutputStore.Open: does not tell the errors apart, because they differ only in kind and message.
- The mechanics of the broadcast channel beyond its buffer of 256 frames; timers and heartbeats.
- The page's manual reload, its side refreshes and typing preview.
- When a result has been sent often enough to be shown short: the choice is a parameter of `Select`.
- How a person-readable size, a duration and the rendering of floating-point numbers look: `Projection` takes them as functions.
- Time limits of RPC calls are a step that may happen at any moment; request frames from the peer and the queue that holds them; frame numbers do not wrap.
- Rows of retired approvals in the delivery log.
- WriteRetry.WritesApplyOnce: a closure reads rows one at a time; a scan of a table counts as reading every row of it, and rows that would newly match are not modelled.
- SelfUpdate.Updater.Update: the network is what it delivered in the end, because how it got there changes nothing; generations get names that were not used before.
- SelfUpdate.Updater.InstallWeb: a link's text is resolved part by part, because the model has no links on the way there; a text that passes through a folder that is not there makes the removal fail, as any disk operation can.
- Links under the names that an update stages to.
- The events of `EventServer`, the frames of `EventHub` and those of `Sse` are three types, each with what its part looks at; the end-to-end theorems join the connection and the clients, not the hub and the encoder.
- File modes, the retry when a program file is still open elsewhere, and the restart hint.
- Mutual exclusion of the gateway's lock file: reading the old lock and removing it are separate steps, so it does not hold as written.
- Percent encoding, base64url, the cookie table, telemetry and the chat de-duplication queue: easy members.
