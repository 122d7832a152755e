# A verified model of an agent runtime's protocols and transformations

The project models the parts of the repository where correctness depends on more than one step, and proves what they
are for. Each module stands for one component.

- **Streaming model responses** (`Utf8`, `SseFraming`, `StreamDriver`, `ChatCompletionParser`, `CodexStreamParser`,
  `StreamedCalls`, `WrittenBodies`). Byte chunks go through an incremental UTF-8 buffer, are cut into
  server-sent-event frames, and feed a stateful parser. The main result is that the outcome of a call and everything
  its sink receives depend on the bytes and not on where the network splits them. It holds for every body, broken off
  or not, unless an encoding error follows a complete frame, and then some split makes a difference. What a call
  returns and sends is given by the payloads that were written into the body. The decoder is related to the encoding
  of RFC 3629 section 3, for valid and invalid input alike.
- **Replaying responses** (`GeminiReplay`). A response's visible parts are joined, and the signed ones are later found
  again in the joined text by greedy search; thoughts and function calls are sent back beside them.
- **The workspace gate and the runtime loader** (`WorkspaceGate`, `RuntimeLoader`). Restores, runtime operations,
  loads and removals interleave freely; an inductive invariant covers every run.
- **Conversation context** (`ContextManager`, `ContextSession`). What a reader of the history knows of the displayed
  fields of the reference context, and what of the history a restart brings back, over runs with updates, failed turn
  starts, compactions and restarts.
- **Checkpoint restore** (`CheckpointRestore`). Collection, deepest-first cleaning and the restore that follows.
- **Thread projection** (`ThreadProjection`, `ThreadTranscript`, `MergedMessages`). A fold over events builds a
  transcript, and response items are merged into it. What the transcript says is given by the events and the messages
  alone.
- **JSON Schema references** (`SchemaRefs`). Moving `definitions` to `$defs` and what becomes of the references (RFC
  6901 sections 3 to 5, JSON Schema Core 2020-12 section 8.2.4).
- **MCP** (`McpNames`, `McpClients`). Bounded unique tool names, and who owns a client while connects and shutdowns
  interleave.
- **Token refresh** (`TokenRefresh`). Concurrent calls share one access token and refresh it under a lock.

`Wrappers`, `Text` and `JsonValue` hold shared carriers, string operations and JSON values.

## How it is built

Methods with loops follow the imperative code and are proved equal to specification functions; case tables without
loops are functions that both share. The properties are lemmas about those functions. Concurrent components are state
machines whose actions are the critical sections of the code, and their properties hold after every sequence of
actions that can happen. `dafny verify dfyconfig.toml` checks everything.

Where a promise turned out not to hold everywhere, the code is kept as it is and the exact condition is proved:

- `StreamDriver.ChunkingMattersOtherwise`: chunking matters once an encoding error follows a complete frame.
- `ContextSession.GuidanceToldIff` and `GuidanceOfFirstModeStays`: updates never tell the guidance of the turn mode or
  the execution boundary. The history tells them exactly when the last full injection was in the same turn mode, or
  under the same permission profile; a thread that changes its turn mode keeps the guidance of the first.
- `ContextSession.DiffsAreEnoughIff` and `AlwaysToldIff`: a full injection with only one of the two profile texts
  shows neither, and until the field changes the history does not tell it.
- `ContextSession.RebuiltAfterRestart`, `RebuiltDropsUnlogged` and `UnloggedMessageIsForgotten`: a goal update outside
  a turn records a message that is never written to the rollout. A restart brings the history back exactly when every
  message in it was logged, and loses exactly the others. `ReaderSurvivesRestart`: what a reader knows comes back all
  the same.
- `ContextSession.RebuiltAfterRestart` and `FailedStartMisleads`: a turn start that fails between recording and
  appending leaves its context in memory only. The reference comes back exactly when no start has failed since the
  last update, compaction or restart, or it failed with the same context. A restart after a failed start can leave a
  history that tells an older value than the reference holds.
- `GeminiReplay.OwnPlaceIff`, `ReplayKeepsBoundaries` and `SignatureMovesForward`: greedy search matches a signed text
  at its own place exactly when it does not occur earlier in what remains; otherwise its signature goes to the earlier
  occurrence.
- `SchemaRefs.PropertyNamesKeptIff` and `ParameterNamedDefinitionsIsRenamed`: a schema's parameters keep their names
  exactly when none of them is named `definitions`.
- `SchemaRefs.ReferenceMeaningKept`, `ReferenceMeaningKeptIff`, `DefinitionNamedRefKeptIff`,
  `DefinitionNamedDefsKeptIff` and `DefinitionNamedDefinitionsIsLost`: a reference through a nested `definitions`
  dangles, a definition that `$defs` shadows may change its meaning, and so may one that bears a name the rewriting
  itself reads.
- `McpClients.ReturnsMayDiffer` and `ReturnsAgreeIff`: callers *returning* between the same two shutdowns may get
  different clients; callers whose *choices* lie between them get the same one, and only those do.
- `TokenRefresh.NeedlessRefresh` and `ExpiredRefreshesIff`: calls that saw the same token expired share one refresh
  unless the new token comes without an expiry or is past it again.

Assumptions about code outside the model: a turn becomes active only on an installed runtime while a gate permit for
its workspace is held, and a runtime's workspace does not change (`RuntimeLoader`); the issuer never issues an access
token twice, and the system clock never goes back (`TokenRefresh`). What a session records and appends, and in which
order, follows `context_start.rs`, `compaction_flow.rs`, `recording.rs`, `sampling.rs`, `mod.rs` and `goal_effects.rs`
in `src/runtime/thread_session/turn` (`ContextSession`); a failing append is a failed start followed by unlogged
messages.

## Model

| member | source | states |
|---|---|---|
| `Utf8.AppendUtf8Chunk` | src/model/openai_compatible.rs:324-349 | Fails exactly when no continuation of pending and chunk is well formed; otherwise the buffer gains the longest decodable text and what stays pending is the rest, the beginning of one character. |
| `Utf8.RunRefinesWholeDecoding` | src/model/openai_compatible.rs:324-349 | Over a whole run of calls: failure exactly when the bytes so far cannot be continued; otherwise the encoded text followed by the pending bytes is the concatenation of the chunks, and at most three bytes of one character are pending. |
| `Utf8.AcceptableIffExtendable` | src/model/openai_compatible.rs:324-349 | The validator's verdict (no error other than a cut at the end) means exactly that some continuation is well formed in the sense of the reference encoding. |
| `Utf8.EncodeThenDecode` | src/model/openai_compatible.rs:328-332 | Decoding encoded text followed by anything yields the text and then what the rest decodes to. |
| `Utf8.DecodeConcat` | src/model/openai_compatible.rs:333-341 | Decoding may stop anywhere and resume from the bytes left over. |
| `Utf8.CutMeansSplitChar` | src/model/openai_compatible.rs:342-344 | The validator reports a cut exactly on the proper beginnings of one encoded character. |
| `Utf8.WellFormedIffNoRest` | src/model/chatgpt_codex.rs:640-665 | Validation leaves nothing over exactly when the bytes encode some text. |
| `SseFraming.BoundaryIsEarliestDelimiter` | src/model/openai_compatible.rs:351-358 | The boundary is the earliest occurrence of either delimiter, and there is none exactly when no delimiter occurs. |
| `SseFraming.BoundaryIsStable` | src/model/openai_compatible.rs:351-358 | A boundary complete in the buffer stays the earliest one whatever text follows. |
| `SseFraming.PayloadsRead` | src/model/openai_compatible.rs:506-512 | Whatever the lines of a frame are: what is read are the payloads of the `data:` lines, in order, with or without a blank behind the colon and a carriage return at the end; every other line gives nothing. |
| `StreamDriver.Stream` | src/model/openai_compatible.rs:282-322 | For every body, read errors included, the loop's outcome is that of running the parser over the whole delivered text. |
| `StreamDriver.PumpFrames` | src/model/openai_compatible.rs:295-305 | Draining frames in place is the recursive specification of cutting and parsing. |
| `StreamDriver.FinishBody` | src/model/openai_compatible.rs:308-321 | The end of a body: held-back bytes make it an incomplete sequence, a non-blank remainder is one more frame. |
| `StreamDriver.PumpResumes` | src/model/openai_compatible.rs:295-305 | Cutting and parsing frames may stop anywhere in the text and resume when more has arrived. |
| `StreamDriver.ReferenceParsesFrames` | src/model/chatgpt_codex.rs:485-526 | The parser sees the frames of the text in order, then a non-blank remainder of a clean stream, and nothing after it stops. |
| `StreamDriver.ChunkingDoesNotMatter` | src/model/openai_compatible.rs:282-358 | For every parser, every split and every ending, read errors included, the outcome is that of one chunk when the bytes have no encoding error behind a complete frame. |
| `StreamDriver.ChunkingMattersOtherwise` | src/model/openai_compatible.rs:282-358 | For every other byte stream there are a parser and a split with a different outcome: the condition is exact. |
| `StreamedCalls.CallsIgnoreChunking` | src/model/openai_compatible.rs:282-322 | For both clients and under the same condition, the result of a call and the deltas sent to its sink do not depend on the split. |
| `StreamedCalls.ChatCallSays` | src/model/openai_compatible.rs:282-504 | A successful call returns what the chunks say: the contents and the reasoning joined in order, each absent exactly when there is none, the name of the first reasoning field, the last usage, and one tool call per index in ascending order made from that index's deltas. |
| `StreamedCalls.ChatSinkHears` | src/model/openai_compatible.rs:282-450 | However a call ends, its sink has heard exactly the contents and the reasoning of the chunks received, in order. |
| `WrittenBodies.ChatReadsWhatIsWritten` | src/model/openai_compatible.rs:282-512 | For every list of payloads written as frames: a successful call returns, and its sink hears, what the chunks decoded from these payloads up to `[DONE]` say. |
| `WrittenBodies.ChatCallSucceedsIff` | src/model/openai_compatible.rs:282-504 | Such a call succeeds exactly when every payload up to `[DONE]` decodes and every index told has a name and arguments that decode. |
| `WrittenBodies.CodexReadsWhatIsWritten` | src/model/chatgpt_codex.rs:485-628 | The same for the other client: the events of the written payloads decide its text, its reasoning, its response and what its sink hears. |
| `ChatCompletionParser.ChatCompletionStreamParser.ProcessFrame` | src/model/openai_compatible.rs:378-412 | The object's fields and sink after a frame are those of the frame specification, including the stop and the decoding error. |
| `ChatCompletionParser.ChatCompletionStreamParser.ApplyDelta` | src/model/openai_compatible.rs:414-450 | One delta updates reasoning, text and partial calls and sends its events, as specified. |
| `ChatCompletionParser.ChatCompletionStreamParser.FinishToolCalls` | src/model/openai_compatible.rs:454-484 | Visits the partial calls in ascending index order and stops at the first that cannot be finished. |
| `ChatCompletionParser.ChatCompletionStreamParser.Finish` | src/model/openai_compatible.rs:452-504 | The completion, or the error of the first unfinished call. |
| `ChatCompletionParser.AssembledPerIndex` | src/model/openai_compatible.rs:431-447 | A partial call exists exactly for the indices that occur, and is the summary of its own deltas: last id, last name, all fragments in order. |
| `ChatCompletionParser.InterleavingDoesNotMatter` | src/model/openai_compatible.rs:431-447 | Delta sequences that agree per index assemble to the same calls. |
| `ChatCompletionParser.FinishedTurnPerIndex` | src/model/openai_compatible.rs:452-504 | Finished calls come in strictly ascending index order, one per index, each with its own id or the synthesized one; text, reasoning and usage are those held, the first two absent exactly when empty. |
| `ChatCompletionParser.RefusedIff` | src/model/openai_compatible.rs:471-494 | Finishing fails exactly when some index has no name or arguments that do not decode. |
| `ChatCompletionParser.StreamSummary` | src/model/openai_compatible.rs:378-450 | However a stream ends, text, reasoning, the reasoning field, the usage and the partial calls held are what the received chunks say, and the sink was sent exactly their contents and reasoning in order. |
| `CodexStreamParser.ChatGptCodexStreamParser.ProcessFrame` | src/model/chatgpt_codex.rs:537-591 | A frame is read to its end even after `[DONE]`; fields and sink match the specification, failures included. |
| `CodexStreamParser.ChatGptCodexStreamParser.Finish` | src/model/chatgpt_codex.rs:593-628 | The completed response amended with what was streamed, or a turn made of it. |
| `CodexStreamParser.StreamSummary` | src/model/chatgpt_codex.rs:537-628 | Held text and reasoning are the deltas received before the first failing event, which are also what was sent, in order; the last completed response wins; streamed text is used exactly when that response has none. |
| `CodexStreamParser.EventKinds` | src/model/chatgpt_codex.rs:537-590 | Which event types are text, which reasoning, which failures, and that everything else is ignored. |
| `GeminiReplay.ParseResponse` | src/model/gemini.rs:84-135 | The part loop yields the joined visible texts, the calls with their positions and the reasoning blocks. |
| `GeminiReplay.PushVisibleTextParts` | src/model/gemini.rs:451-481 | The greedy loop pushes what the recursive search specification says. |
| `GeminiReplay.SignedTextsFound` | src/model/gemini.rs:451-474 | In any text that still ends with the joined visible texts, the greedy search finds every signed text. |
| `GeminiReplay.LeftmostMatchLeavesRest` | src/model/gemini.rs:457-466 | Matching a text leftmost never uses up anything behind its own place. |
| `GeminiReplay.ReplayRoundTrip` | src/model/gemini.rs:366-420 | For every response: each non-empty signed text is found and sent exactly once, with its signature and in order, and the text parts spell the visible content with only newlines left out. |
| `GeminiReplay.ReplaySendsEverything` | src/model/gemini.rs:84-135 | For every response: the text parts are sent first, then one thought for each non-empty thought text, then one call for each function call, in order, with signatures, names and arguments; there is nothing to send, which is an error, exactly when it has no thought, no call and no visible text but possibly one empty one. |
| `GeminiReplay.CallsArePositioned` | src/model/gemini.rs:111-118 | Each parsed call bears the position of its part, and every function call is parsed. |
| `GeminiReplay.UnsignedContentIsSentWhole` | src/model/gemini.rs:379-387 | With no signed text to find, the content goes out as one part under the first signature kept of an empty one. |
| `GeminiReplay.OwnPlaceIff` | src/model/gemini.rs:457-466 | The search matches a signed text at its own place exactly when it does not occur earlier in what remains, and then what remains are the texts behind it. |
| `GeminiReplay.ReplayKeepsBoundaries` | src/model/gemini.rs:451-481 | If that holds for every signed text, the replay sends each in its place and what lies between two of them as one unsigned text. |
| `GeminiReplay.SignatureMovesForward` | src/model/gemini.rs:451-474 | The failing input: an unsigned `ab` before a signed `a`. |
| `WorkspaceGate.Gate.ClaimRestore` | src/app_server/runtime_loader.rs:304-337 | The critical section: refused while restoring or while operations run, else marks the workspace. |
| `WorkspaceGate.Gate.BeginWorkspaceRuntimeOp` | src/app_server/runtime_loader.rs:339-375 | The critical section: refused while restoring, else counts one more operation. |
| `WorkspaceGate.Gate.DropRestoreGuard` | src/app_server/runtime_loader.rs:377-386 | Dropping a restore guard unmarks its workspace and nothing else. |
| `WorkspaceGate.Gate.DropRuntimeOpGuard` | src/app_server/runtime_loader.rs:388-403 | Dropping an operation guard counts one less and forgets a count of zero. |
| `RuntimeLoader.InvHolds` | src/app_server/runtime_loader.rs:146-403 | Every step keeps the combined invariant of gate, locks, misses, runtimes, log and restores. |
| `RuntimeLoader.RestoreIsExclusive` | src/app_server/runtime_loader.rs:259-403 | In every run: never restoring with a positive count, the count is the number of live guards, and while a granted restore guard lives no loaded runtime of its workspace has an active turn. |
| `RuntimeLoader.SingleLoad` | src/app_server/runtime_loader.rs:146-226 | In every run an installation finds its thread unmapped, and every removal and successful return names the runtime mapped just then. |
| `RuntimeLoader.ChecksAnswer` | src/app_server/runtime_loader.rs:146-178 | In every run, a call that finds its thread mapped, at either look, returns the mapped runtime exactly when it asked for no workspace or for the one that runtime was spawned in, and is refused otherwise. |
| `RuntimeLoader.GateAdmitsIff` | src/app_server/runtime_loader.rs:304-375 | In every run, a restore is admitted exactly when no restore of its workspace and no operation in it is under way, an operation exactly when no restore is. |
| `RuntimeLoader.RestoreRefusedIff` | src/app_server/runtime_loader.rs:259-281 | The scan of a claimed restore refuses it at a runtime exactly when that one has an active turn in the workspace; otherwise it goes on without it, and it is granted when none is left. |
| `RuntimeLoader.RemovedBetweenInstallations` | src/app_server/runtime_loader.rs:91-105 | Between two installations for a thread its runtime is removed. |
| `ContextManager.Manager.RecordItems` | src/runtime/context.rs:128-137 | Recording appends messages and bumps the version, up to its largest value, exactly when there are any. |
| `ContextManager.Manager.ReplaceHistory` | src/runtime/context.rs:182-191 | Replacing swaps items and reference and forgets token counts. |
| `ContextManager.Manager.ApplyContextUpdates` | src/runtime/context.rs:193-207 | Returns and records the full messages without a reference, else the changes, and makes the context the reference. |
| `ContextManager.Manager.LoadRollout` | src/runtime/context.rs:90-115 | The loop over rollout items is the replay specification. |
| `ContextManager.BuildContextUpdateMessages` | src/runtime/context.rs:436-542 | The pushes produce the changed fields in order, runtime context before environment, and no empty message. |
| `ContextManager.FullMessagesExact` | src/runtime/context.rs:371-434 | A full injection tells every displayed field, the guidance of the turn mode and the execution boundary included, exactly when the profile texts are both present or both read as absent. |
| `ContextManager.FullMessagesSay` | src/runtime/context.rs:371-434 | What a reader of a full injection learns of each field, in terms of the turn context. |
| `ContextManager.UpdateMessagesRead` | src/runtime/context.rs:436-555 | Changes tell a tracked field's current value exactly when it has changed, and otherwise leave what the reader knows; they never tell the guidance or the boundary. |
| `ContextManager.UpdatesTellBoth` | src/runtime/context.rs:436-566 | An update is at most one message about the run, then one about the environment; every change in it tells the old and the new value, which differ, each field once and in its order. |
| `ContextManager.SilentUpdate` | src/runtime/context.rs:436-566 | An update adds no message exactly when no displayed field has changed. |
| `ContextSession.KnowledgeIsExact` | src/runtime/context.rs:193-207 | Over every run with failed starts and restarts: what a reader knows of a field, in memory and from the rollout, is what the injected and changed contexts tell. |
| `ContextSession.DiffsAreEnoughIff` | src/runtime/context.rs:182-207 | Over every run that no restart has misled, whenever a reference is held: the history tells a tracked field exactly when the last full injection showed it, or it read as absent anyway, or it has changed since; and the others exactly when they display as in the last full injection. |
| `ContextSession.GuidanceToldIff` | src/runtime/context.rs:395-416 | The guidance of the turn mode is told exactly when the last full injection was in the same mode, the execution boundary exactly when it was under the same permission profile. |
| `ContextSession.GuidanceOfFirstModeStays` | src/runtime/context.rs:395-400 | The failing input: a thread starts in one turn mode and takes its next turn in the other. |
| `ContextSession.DiffsAreEnough` | src/runtime/context.rs:182-207 | So every tracked field is always told, the two profile texts when every full injection shows them, and the others as long as no update changes them. |
| `ContextSession.AlwaysToldIff` | src/runtime/context.rs:371-542 | Every state along a run tells every displayed field exactly when every full injection has the profile texts both present or both reading as absent and no update changes the turn mode or the permission profile. |
| `ContextSession.RebuiltAfterRestart` | src/runtime/context.rs:90-115 | Over every run with failed starts and restarts: a rebuild gives exactly the logged messages of the history, all of it if and only if all was logged; the token counts always; and the reference of the last logged update, which is the one in memory if and only if no failed start is pending with another context. |
| `ContextSession.ReaderSurvivesRestart` | src/runtime/context.rs:90-115 | With no failed start since the last compaction, the reference and everything a reader knows come back. |
| `ContextSession.RebuiltDropsUnlogged` | src/runtime/context.rs:90-115 | Over a run without failed starts, what is rebuilt is the manager of the same run without its unlogged messages. |
| `ContextSession.UnloggedMessageIsForgotten` | src/runtime/thread_session/turn/goal_effects.rs:115-157 | The failing input: a goal update outside a turn leaves a message in memory that a restart forgets. |
| `ContextSession.FailedStartMisleads` | src/runtime/thread_session/turn/context_start.rs:86-155 | The failing input: a start fails with a new model, the next turn has it too, and after a restart the reference has the new model and the history the old one. |
| `ContextManager.CompactionIsACut` | src/runtime/context.rs:90-115 | Nothing before a compaction with replacement history matters to a rebuild. |
| `ContextManager.LastOnesHold` | src/runtime/context.rs:90-115 | The token counts and the reference of a rebuild are the last in the rollout, unless a compaction replaced the history after them. |
| `ContextManager.VersionCounts` | src/runtime/context.rs:128-191 | A rebuild counts one version for each recorded message and replaced history, up to the largest 64-bit number. |
| `CheckpointRestore.CollectWorkspaceEntries` | src/workspace_checkpoint.rs:440-472 | Lists exactly the entries below the root that lie under no skipped directory, with their kinds. |
| `CheckpointRestore.SortDeepestFirst` | src/workspace_checkpoint.rs:330-330 | Sorted by depth, deepest first, with the same entries. |
| `CheckpointRestore.Workspace.RemovePathsAbsentFromCheckpoint` | src/workspace_checkpoint.rs:317-379 | Leaves a cleaned workspace: collected files survive exactly when in the checkpoint or preserved, collected directories exactly when preserved or not empty, and nothing else changes; the manifest decides what is preserved, else what git ignores. |
| `CheckpointRestore.CleanAllCleans` | src/workspace_checkpoint.rs:332-365 | Deepest first, one pass over the entries is enough. |
| `CheckpointRestore.DirectorySurvivesIff` | src/workspace_checkpoint.rs:341-353 | A directory survives exactly when something kept lies at it or below it at any depth. |
| `CheckpointRestore.CleanedIsWellFormed` | src/workspace_checkpoint.rs:332-365 | No survivor loses its parent. |
| `CheckpointRestore.RepositoriesStay` | src/workspace_checkpoint.rs:440-475 | Cleaning changes nothing in a `.git`, in a directory that holds one, or in a submodule. |
| `CheckpointRestore.RestoreIsExact` | src/workspace_checkpoint.rs:120-160 | Whatever was edited in between: every checkpoint file has its checkpoint content, and the other files left are exactly the preserved or skipped ones that git does not track and that are not in the way, unchanged. |
| `ThreadProjection.BuildTurnViews` | src/app_server/thread_projection.rs:115-259 | The loop over events, updating views by index, is the fold that the invariants and the transcript's meaning are about. |
| `ThreadProjection.EnsureTurnView` | src/app_server/thread_projection.rs:427-438 | Finds the first view of a turn or appends one, and returns its index. |
| `ThreadProjection.ApplyToolInvocationEvent` | src/app_server/thread_projection.rs:611-807 | Updates the first invocation with the id in place, or appends a new one. |
| `ThreadProjection.SettleInvocations` | src/app_server/thread_projection.rs:809-855 | Settles every invocation waiting for the approval or the input, in place, and touches nothing else. |
| `ThreadProjection.ProjectedFacts` | src/app_server/thread_projection.rs:115-259 | Every event keeps the fold invariant and only appends turn ids. |
| `ThreadProjection.EveryFold` | src/app_server/thread_projection.rs:115-259 | Over every event sequence: unique turn ids, unique invocation ids within a turn, a current turn that exists in progress or failed, and the turns of a prefix first. |
| `ThreadTranscript.TranscriptTells` | src/app_server/thread_projection.rs:115-259 | For every event sequence: a turn has a view exactly when an event belongs to it; the view holds one item for each of its events that leave one, in order, of that event's kind and with its id and text; its status is that of the last deciding event. |
| `ThreadTranscript.InvocationsTell` | src/app_server/thread_projection.rs:611-855 | For every event sequence: an invocation is shown exactly when an event of the turn updates it, with the status, reason and message of the last update or answer that decides them, the tool last told, what it waits for, and its output chunks joined in order. |
| `ThreadTranscript.TargetIs` | src/app_server/thread_projection.rs:440-446 | Turn boundaries belong to the turn they name, and everything else to the turn that was started last and has not ended, if there is one. |
| `ThreadProjection.WithInvocationFacts` | src/app_server/thread_projection.rs:611-807 | An update adds its invocation id exactly when it is new and otherwise keeps the ids and their order. |
| `ThreadProjection.InsertProjectedTurnMessages` | src/app_server/thread_projection.rs:307-352 | The insertions in place are the merge specification. |
| `ThreadProjection.MergeOnlyInserts` | src/app_server/thread_projection.rs:307-352 | The items there before a merge remain a subsequence in their order. |
| `ThreadProjection.MergeIsIdempotent` | src/app_server/thread_projection.rs:307-414 | Merging the same messages twice equals merging them once. |
| `ThreadProjection.ToolCallersGoBeforeTools` | src/app_server/thread_projection.rs:320-352 | With a tool item in the turn, tool-calling messages go directly before the first one in message order and the others to the end in message order; without one, all go to the end in message order. |
| `ThreadProjection.UserGoesFirst` | src/app_server/thread_projection.rs:307-319 | The projectable user message ends at the front. |
| `MergedMessages.MergeSays` | src/app_server/thread_projection.rs:271-414 | A merge keeps every item and adds exactly the last shown user message and the reply and displayed reasoning of every shown assistant message, each unless an item already says it. |
| `MergedMessages.ProjectableIff` | src/app_server/thread_projection.rs:354-371 | A message is shown exactly when it was not injected and has a text, an image from the user, or reasoning or tool calls of the assistant. |
| `MergedMessages.ReasoningDisplayed` | src/app_server/thread_projection.rs:393-402 | A reasoning block is displayed without the white space around it, unless it is redacted or blank. |
| `ThreadProjection.InsertResponseItems` | src/app_server/thread_projection.rs:271-305 | The loops over response items and turns are the insertion specification. |
| `ThreadProjection.InsertedLookup` | src/app_server/thread_projection.rs:271-305 | A turn after insertion depends only on its view before and its own messages; fork context creates and changes nothing. |
| `ThreadProjection.InterleavingDoesNotMatter` | src/app_server/thread_projection.rs:271-305 | Reordering response items without changing a turn's own order changes no turn. |
| `ThreadProjection.InsertIsIdempotent` | src/app_server/thread_projection.rs:271-305 | Inserting the same response items twice equals inserting them once, for the whole thread. |
| `ThreadProjection.TranscriptOfTurn` | src/app_server/thread_projection.rs:115-352 | From any events and response items, a turn starts with its last projectable user message and keeps its event-derived items in order. |
| `SchemaRefs.RewriteJsonSchemaRefs` | src/model/openai_compatible.rs:775-797 | The traversal yields the rewritten tree and terminates although merging moves subtrees first. |
| `SchemaRefs.MergeDefs` | src/model/openai_compatible.rs:799-811 | Existing entries win; a missing `$defs` becomes the definitions; otherwise a non-object on either side drops them. |
| `SchemaRefs.PreparedLower` | src/model/openai_compatible.rs:778-787 | After moving subtrees every child is still lower than its object was. |
| `SchemaRefs.RewriteIsAFixpoint` | src/model/openai_compatible.rs:775-797 | At every depth no `definitions` key and no old reference is left; a second rewrite changes nothing; a schema is unchanged exactly when it had neither. |
| `SchemaRefs.PropertyNamesKeptIff` | src/model/openai_compatible.rs:775-789 | The properties of an object schema keep their names exactly when none is named `definitions`, and then each is rewritten in its place. |
| `SchemaRefs.ParameterNamedDefinitionsIsRenamed` | src/model/openai_compatible.rs:775-789 | The failing input: a tool whose one parameter is named `definitions`. |
| `SchemaRefs.ResolveRewritten` | src/model/openai_compatible.rs:775-797 | For every value and every pointer: resolving in the rewritten value gives the rewrite of where the pointer leads when each object on the way is prepared first. |
| `SchemaRefs.NewReferenceResolves` | src/model/openai_compatible.rs:769-811 | What any reference below `$defs` resolves to in a rewritten schema. |
| `SchemaRefs.ReferenceMeaningKept` | src/model/openai_compatible.rs:769-811 | For a reference of any depth that resolved and whose name `$defs` does not have: the new one resolves to the rewrite of what the old one resolved to exactly when no token of its path is `definitions`; otherwise it dangles. |
| `SchemaRefs.ReferenceMeaningKeptIff` | src/model/openai_compatible.rs:775-811 | For a plain name the meaning is kept exactly when `$defs` is absent or gives nothing else for that name. |
| `SchemaRefs.DefinitionNamedRefKeptIff` | src/model/openai_compatible.rs:781-785 | A definition named `$ref` keeps its meaning exactly when it is not a string beginning with `#/definitions/`. |
| `SchemaRefs.DefinitionNamedDefsKeptIff` | src/model/openai_compatible.rs:799-811 | A definition named `$defs` keeps its meaning exactly when it is not an object or nothing new joins it from a definition named `definitions`. |
| `SchemaRefs.DefinitionNamedDefinitionsIsLost` | src/model/openai_compatible.rs:778-780 | A definition named `definitions` can no longer be referred to. |
| `McpNames.NormalizedIdIsFixed` | src/mcp/config.rs:15-28 | Normalizing an id twice equals normalizing it once, so a registered server is found again. |
| `McpNames.NormalizedIsTheMiddle` | src/mcp/config.rs:15-28 | Normalizing keeps the middle of a value, with an underscore for each character that is not plain; only such characters and underscores are lost at the ends, and none is left there. |
| `McpNames.PlainSpelling` | src/mcp/manager.rs:256-261 | A tool whose plain spelling fits and is unused is named by its server and its own name as they are. |
| `McpNames.CandidateSpelled` | src/mcp/manager.rs:262-277 | A hashed name shows up to 24 characters of the server, as much of the tool as fits, and eight digits that read as the hash. |
| `McpNames.VisibleToolName` | src/mcp/manager.rs:246-283 | Returns the specified name and records it; no budget subtraction underflows. |
| `McpNames.DiscoveredTools` | src/mcp/manager.rs:215-244 | The tools of one server are named in order, each name kept from the later ones. |
| `McpNames.RefreshTools` | src/mcp/manager.rs:69-94 | The names of a refresh across all servers are those of the offered tools one after another; failing servers contribute none. |
| `McpNames.NamesAreDistinct` | src/mcp/manager.rs:69-94 | For every hash: one name per tool, pairwise distinct, at most 64 characters, starting with `mcp__`, plain characters only. |
| `McpNames.LimitDoesNotMatter` | src/mcp/manager.rs:262-280 | A name found within a limit on the attempts is the one found without it. |
| `McpNames.NamelessIff` | src/mcp/manager.rs:256-283 | No name is found within a limit exactly when the plain spelling is unusable and every attempt within the limit is used. |
| `McpNames.ComputeStableHash32` | src/mcp/manager.rs:298-313 | The hash loop is the 32-bit FNV-1a fold over the tool's bytes and the attempt. |
| `McpNames.PublishedVectors` | src/mcp/manager.rs:298-313 | The fold gives the published FNV-1a values of the empty input and of one letter. |
| `McpNames.StableHashSpreads` | src/mcp/manager.rs:298-313 | The first 256 attempts at a tool hash to different values. |
| `McpNames.SmallRefreshIsNamed` | src/mcp/manager.rs:246-313 | With the actual hash, up to 256 tools all get names within 256 attempts. |
| `McpClients.ServerSlots.InstallOrGet` | src/mcp/manager.rs:186-199 | The critical section: the slot keeps its client if it has one, else takes the caller's; the client then in the slot is chosen. |
| `McpClients.ServerSlots.TakeClients` | src/mcp/manager.rs:126-133 | The critical section: every slot is emptied and its client taken, each exactly once. |
| `McpClients.OwnershipIsConserved` | src/mcp/manager.rs:126-205 | In every run each client created is in exactly one place: in flight, in one slot, taken by a shutdown, or shut down exactly once. |
| `McpClients.SlotKeptIff` | src/mcp/manager.rs:126-205 | Over any stretch of a run an occupied slot holds the same client at the end exactly when no shutdown cleared the slots in between: nothing overwrites it, and a client taken out never comes back. |
| `McpClients.SameClientIff` | src/mcp/manager.rs:163-205 | Two calls choose the same client for a server exactly when no shutdown cleared the slots between the choices. |
| `McpClients.ReturnsAgreeIff` | src/mcp/manager.rs:163-205 | Two returns for a server give the same client exactly when no shutdown cleared the slots between the choices that settled them, whenever the calls returned. |
| `McpClients.ReturnsMayDiffer` | src/mcp/manager.rs:184-205 | A reachable run in which two calls return different clients for a server with no shutdown between the returns. |
| `TokenRefresh.SingleFlight` | src/model/chatgpt_codex.rs:188-248 | In every run at most one refresh is in flight, and it carries the current refresh token. |
| `TokenRefresh.TokensAreReplacedOnce` | src/model/chatgpt_codex.rs:151-248 | In every run an access token is replaced at most once however many calls were rejected with it, each refresh sends what the one before stored, and a rejected call replaces only the token it was rejected with. |
| `TokenRefresh.ExpiredRefreshesIff` | src/model/chatgpt_codex.rs:175-206 | In every run under a clock that never goes back, a call that saw a token expired refreshes exactly when that token is still current, or its replacement has no expiry or is past it. |
| `TokenRefresh.NeedlessRefresh` | src/model/chatgpt_codex.rs:188-234 | The failing input: the answer leaves the expiry out, and a second call that saw the old token expired asks to replace the new one. |
| `TokenRefresh.RetryUsesAnotherToken` | src/model/chatgpt_codex.rs:151-173 | A second request never carries the token the first was rejected with. |
| `TokenRefresh.AnswersAreHeld` | src/model/chatgpt_codex.rs:226-240 | In every run the tokens held are those of the last answer, the refresh token the last one sent, and the expiry so many seconds after that answer, or none. |
| `TokenRefresh.AtMostTwoRequests` | src/model/chatgpt_codex.rs:151-173 | In every run no call sends a third request, and it sends a second only after the first was rejected. |

## Left out

- HTTP, channels, processes, SQL, images, MCP transport and the desktop code: reads are input sequences, awaits are boundaries between steps.
- JSON text: parsing is a parameter of the stream parsers, and so is reading a completed Codex response (src/model/chatgpt_codex.rs:704-769).
- Failing sinks: the sink of a parser accepts every event. The driver's results hold for a parser that fails for any reason.
- Character positions: strings are sequences of Unicode scalar values, while the source counts bytes. Every delimiter searched for is found at the same place.
- Git: the checkpoint is a map from paths to contents, ignoring is a predicate, and restoring follows the documented default of `git restore` (no overlay, places in the way give way). Nested repositories, submodules and `.git` are only passed over. The tracked paths are a parameter too. File system errors are not modelled.
- Runtimes already removed by `shutdown_and_remove`: nothing is claimed about their turns.
- Cancelled loads: a call that waits for the load lock or spawns a runtime is not dropped midway.
- Context: stable and ephemeral internal contexts, token estimates and exact message wording. Messages are labelled values, and the plan mode overlay is a constant.
- GeminiReplay: the token usage of a response, and the spelling of call ids, of which only the position is kept.
- Thread projection: event kinds that only add an item of their own are one kind, item payloads are reduced to what later steps read, and `latest_turn_state` is not modelled.
- In-place aliasing: vectors and maps passed by mutable reference are values that go in and come out.
- The order in which hash maps are iterated: any order is allowed where the source iterates one.
- VisibleToolName: the open-ended attempt loop stops at a limit and returns nothing there; `LimitDoesNotMatter` shows that a result within any limit is the original's.
- StableHash32: laid out for a 64-bit target, with positions and attempts below 2^64.
- SchemaRefs.ReferenceMeaningKept: a path that meets a `$defs` joined by definitions, or that ends at a string `$ref`, is described by `NewReferenceResolves` and not by the if-and-only-if.
- SchemaRefs.DefinitionNamedDefsKeptIff: a definition named `$defs` that is joined by entries named `definitions` or `$defs` is described by `ReservedNameResolves` only.
- ContextSession.DiffsAreEnoughIff: after a restart that came while a failed start was pending, and until the next compaction, what the history tells is given by `KnowledgeIsExact` only.
- Request builders, provider tables, thinking-mode maps, configuration, the command line and plain delegation: case tables and forwarding.
