# Chatz: models and proofs

Chatz is a self-hosted chat application: a Go server that streams model turns, stores them as rows
and replays them as history, and a web client that renders the streamed text. This project models
the parts of it whose guarantees are stated in comments and matter most, and proves those
guarantees for every input, every run and every reachable state.

Each file is one module and models one piece of the application.

- `Text`, `PatchAccumulators`, `JsonText`, `FenceSpec`, `FenceParsers`, `FenceInvariant`,
  `FenceStreaming`, `FenceRecovery`, `FenceMultiline`, `FenceBlocks`, `FenceDamage`, `FenceEvents`: the incremental parser that splits a streamed
  message into prose and spec blocks and decides where each JSON patch ends. `FenceSpec` says what
  one line, one chunk and the end of the message do to the parser state; `FenceParsers` has the class
  that does it in place, each method proved equal to its specification; the theorems are about the
  specification. JSON texts (RFC 8259, sections 2 to 7) are syntax trees that keep every
  insignificant space and every escape.
- `ChatMessages`, `ToolHistory`, `PromptSelection`, `StoredHistory`, `TurnTable`: what a whole turn
  is, seen by the tool-history validator, by the budgeted selection of history units, by the
  conversion to and from rows, and by the transactions on the messages table. The theorems say that
  all four agree.
- `TurnLocks`, `UpstreamSlots`, `McpManager`, `TurnTable`: concurrent protocols. Every section under
  a mutex, every channel operation, every timer and every database statement is one step; `Leads`
  relates two worlds joined by any sequence of enabled steps, `Reachable` is what `Leads` reaches
  from the start. Beside each state machine stands a class whose methods are the atomic operations
  and whose contracts are the functions the state machine steps with. An operation that waits, such
  as sending to a full channel, is a method that requires that it can go on; the state machine takes
  the step only then, and the theorems say where waiting cannot happen.
- `Graphs`, `ServiceOrder`, `RootRecovery`: start-up ordering of services by dependency levels, and
  recovery of the root of a flat element tree.
- `ChatSearching`, `EventStream`, `Rebound`: SQL `LIKE` escaping (section 8.5 of ISO/IEC 9075, SQL-92),
  splitting a stream into server-sent event frames (a subset of sections 9.2.5 and 9.2.6 of the
  WHATWG HTML Living Standard), and bounded retries with exponential backoff.

`Wrappers` and `Collections` hold the option and result types and facts about sequences and sets.

Libraries that are not part of this model appear as function-valued parameters: parsing and
applying a spec patch (`FenceSpec.Core`), counting tokens (`PromptSelection.Counter`), JSON validity
(`StoredHistory.Json`), parsing an event (`EventStream.Parse`), the operation, the clock and the
random numbers of a retried call (`Rebound.World`). What drivers, MCP servers, the database and the
scheduler do is a nondeterministic step.

Where the code and its documentation disagree, the model follows the code:

- A comment (web/src/lib/render/fence.ts:47-51) says that the rule for patch boundaries never
  misfires on legitimate multi-line JSON. `FenceMultiline.AppliedOnceExactlyWithoutInnerPatchLine`
  gives the exact condition, `FenceMultiline.NestedPatchIsNotAppliedWhole` the family that fails.
- A comment (internal/pkg/mcp/manager.go:259-265) says that a result that comes after the forced
  timeout is discarded by the generation check. It is applied exactly while its generation is still
  current: `McpManager.LateResultAppliedExactlyWhileCurrent`, reached in
  `McpManager.LateResultReplacesTimeout`.
- Comments (internal/pkg/mcp/manager.go:446-448, 472-474, 872-876) say that a deleted server, a disabled
  one and the servers of a closed manager never reconnect on their own. They do exactly when a retry had
  passed its check when the call was made: `McpManager.RemovedStaysExactlyWithoutRetryPastCheck`,
  `McpManager.DisabledStaysExactlyWithoutRetryPastCheck` and
  `McpManager.ClosedStaysExactlyWithoutRetryPastCheck`, reached in `McpManager.RemovedServerMayReconnect`,
  `McpManager.DisabledServerMayReconnect` and `McpManager.ClosedManagerMayConnect`. The retry may even go
  on while `Disable` runs, so that a server already reported as disabled becomes connected:
  `McpManager.DisabledServerMayConnect`.
- A comment (internal/pkg/mcp/manager.go:165-175) guarantees that a `connecting` status ends. The manager
  alone ends it exactly when a task that the manager bounds is left:
  `McpManager.ConnectingEndsExactlyWithBoundedTask`. None is left when the manager was closed over the
  attempt (`McpManager.ClosedServerHangs`) or while an `Add` that superseded it hangs
  (`McpManager.AddedServerHangs`).
- A shrinking retry multiplier is ignored when the initial delay equals the maximum:
  `Rebound.ShrinkingDelayIsGeometric`, with the configuration of `Rebound.ShrinkingIgnoredExample`.

Three consequences of the code contradict no documentation, but may surprise:

- A turn whose stored rows end on an injection (kept on purpose, internal/pkg/core/chats/stream.go:1108-1119)
  is dropped whole when loaded: `StoredHistory.TurnSurvivesExactlyWithoutFinalInjection`, with the turn of
  `StoredHistory.FinalInjectionExample`.
- Normalising a search text twice can differ from normalising it once: `ChatSearching.NormalisingTwice`,
  with the text of `ChatSearching.NormalisingTwiceExample`.
- A patch object that follows one without its final brace is lost with it unless its first line starts with
  the key "op": `FenceBlocks.BlockRecoveredExactlyWhenHeralded`.

## Model

| member | source | states |
|---|---|---|
| PatchAccumulators.PatchAccumulator.Feed | web/src/lib/render/fence.ts:127-156 | feeding a chunk character by character leaves the accumulator with the text extended and the scan continued, string state, depth and closers included |
| PatchAccumulators.PatchAccumulator.RepairedText | web/src/lib/render/fence.ts:162-164 | the repaired text closes every open bracket, innermost first, after trailing space is dropped |
| PatchAccumulators.ClosersTrackDepth | web/src/lib/render/fence.ts:147-154 | popping an empty stack is a no-op, so for every text the closers outnumber the depth by exactly the deepest excursion below zero |
| PatchAccumulators.ClosersAreOwed | web/src/lib/render/fence.ts:127-164 | for every text, the closers owed are the matching ones of exactly the brackets that are still open, and the repair appends them innermost first |
| PatchAccumulators.RiseIsDecided | web/src/lib/render/fence.ts:102-105 | for every text, completion is sure to come after a positive depth if and only if the text has already reached one |
| PatchAccumulators.FirstCharacterDecidesRise | web/src/lib/render/fence.ts:387-390 | by its first character, a text is sure to rise before it completes exactly when that character opens a bracket, as the guard before feeding demands |
| FenceInvariant.CompletionComesAfterRise | web/src/lib/render/fence.ts:102-105 | on every reachable state, the accumulator that a line was just fed to had a positive depth before it could complete |
| JsonText.ValueLevel | web/src/lib/render/fence.ts:127-156 | scanning any valid JSON value, with any insignificant space and any escaped string content, comes back to the same depth and closers and never dips below them |
| JsonText.CompleteAtFinalBrace | web/src/lib/render/fence.ts:177-182 | for every JSON object in any printed form, a prefix is complete if and only if it contains the final brace |
| JsonText.RepairRestoresObject | web/src/lib/render/fence.ts:158-175 | with only the final brace missing, the repair is attempted and gives back the object up to the space before that brace, with the same meaning |
| FenceParsers.FenceParser.Push | web/src/lib/render/fence.ts:243-254 | pushing a chunk processes every line it completes, in order, and keeps the partial line |
| FenceParsers.FenceParser.Flush | web/src/lib/render/fence.ts:265-284 | the end of input processes the partial line, rescues or reports an open patch when final, and leaves every fence |
| FenceParsers.FenceParser.ProcessOne | web/src/lib/render/fence.ts:289-326 | a line opens a block, closes it, belongs to it, or is prose |
| FenceParsers.FenceParser.OpenBlock | web/src/lib/render/fence.ts:328-340 | opening a block starts an empty spec segment with an empty accumulator |
| FenceParsers.FenceParser.CloseBlock | web/src/lib/render/fence.ts:304-318 | closing a block in the middle of a patch rescues the patch or reports and drops it, then closes the segment |
| FenceParsers.FenceParser.ApplyLine | web/src/lib/render/fence.ts:357-423 | a line in a block is ignored, reported, held, or completes a patch that is applied |
| FenceParsers.FenceParser.TrySalvage | web/src/lib/render/fence.ts:460-474 | a patch is rescued exactly when one brace is missing and the repaired text parses |
| FenceParsers.FenceParser.ApplyPatch | web/src/lib/render/fence.ts:428-452 | a patch text that parses updates the active spec and its count, one that does not is reported |
| FenceParsers.FenceParser.Append | web/src/lib/render/fence.ts:476-488 | prose extends the last prose segment or starts a new one |
| FenceParsers.ParseMessageSegments | web/src/lib/render/fence.ts:497-506 | a message through a fresh parser gives the segments and callbacks of the specification |
| FenceInvariant.LineKeeps | web/src/lib/render/fence.ts:289-488 | every line keeps the state well formed (prose maximal and never empty, only the last block open) and changes no settled segment |
| FenceInvariant.StreamedShape | web/src/lib/render/fence.ts:243-284 | while a message streams in, at most the last segment is an unclosed block and no two prose segments are adjacent |
| FenceStreaming.ChunksDoNotMatter | web/src/lib/render/fence.ts:243-254 | pushing a message in any chunks gives the same segments and callbacks as pushing it whole |
| FenceStreaming.StreamingStability | web/src/lib/render/fence.ts:243-326 | for every message and extension, all segments but the last stay unchanged at their positions, and their number never shrinks |
| FenceStreaming.ProseConserved | web/src/lib/render/fence.ts:289-326 | the prose segments joined are exactly the lines outside fences |
| FenceRecovery.LineApplied | web/src/lib/render/fence.ts:366-422 | whatever was buffered before, a patch line with or without its final brace, indented or followed by space, has in effect applied its patch |
| FenceRecovery.OpLineForgets | web/src/lib/render/fence.ts:366-382 | a line that announces a patch leaves the accumulator as if it had started empty |
| FenceRecovery.TruncationRecovered | web/src/lib/render/fence.ts:302-318 | a closed or finally flushed block of single-line patches, any of which lost their final brace, gives the spec and patch count of the intact block |
| FenceRecovery.LostBracesLoseNothing | web/src/lib/render/fence.ts:366-382 | dropping final braces on any subset of lines changes nothing in what the whole message parses to |
| FenceMultiline.AppliedOnceExactlyWithoutInnerPatchLine | web/src/lib/render/fence.ts:350-423 | an object printed over any number of lines, with any space before it and after it, is applied once, as a whole, if and only if no line after the first looks like the start of a patch |
| FenceMultiline.NestedPatchIsNotAppliedWhole | web/src/lib/render/fence.ts:47-52 | an object with any members, the last of which has a value on a line of its own that starts with the key "op", is never applied whole, against the comment |
| FenceMultiline.NoLineCloses | web/src/lib/render/fence.ts:297-304 | no line of a printed JSON object, with or without its final brace, can be taken for the closing marker |
| FenceBlocks.SwallowedItem | web/src/lib/render/fence.ts:366-400 | an object whose first line does not announce it, after one without its final brace, disappears into the text held for that one |
| FenceBlocks.BlockRecoveredExactlyWhenHeralded | web/src/lib/render/fence.ts:366-400 | a block of objects over any number of lines, any of which lost their final brace, gives the spec and the count of all of them if and only if each object after such a one announces itself on its first line |
| FenceBlocks.LastNewlineDoesNotMatter | web/src/lib/render/fence.ts:265-284 | the end of the stream gives the same segments whether or not the last line has its newline |
| FenceBlocks.MessageRecoveredExactlyWhenHeralded | web/src/lib/render/fence.ts:265-318 | a message that is such a block, closed or ended by the stream after or before its last newline, gives all patches under exactly that condition |
| FenceDamage.OutsideLine | web/src/lib/render/fence.ts:289-303 | a line outside every block opens an empty, announced block exactly when its first visible text is the opening marker, and is prose otherwise |
| FenceDamage.FreshLine | web/src/lib/render/fence.ts:357-423 | told from the line: with nothing held, blank lines are skipped, lines that open no object reported, and the others applied, reported or held by what their brackets and strings come to |
| FenceDamage.ContinuingLine | web/src/lib/render/fence.ts:366-423 | a line that continues an open patch is judged together with what is held |
| FenceDamage.NextPatchLineResolves | web/src/lib/render/fence.ts:366-384 | at the next patch line an open patch is applied and counted exactly when it ends one bracket deep, outside every string, and closing that bracket makes it a patch; otherwise it is reported as truncated and the block stays as it was |
| FenceDamage.ClosingMarkerResolves | web/src/lib/render/fence.ts:297-318 | the same at the closing marker, which closes the block |
| FenceDamage.EndResolves | web/src/lib/render/fence.ts:265-284 | the same at the end of a final message; before the end nothing is rescued or reported |
| FenceDamage.CutInsideNestedIsNeverRescued | web/src/lib/render/fence.ts:158-175 | a printed object cut anywhere inside a nested array or object, whatever space follows, is never rescued: no bracket is invented |
| FenceDamage.CutLineIsReported | web/src/lib/render/fence.ts:366-384 | such a line, followed by the next patch line, is reported as truncated and changes nothing else |
| FenceEvents.EventsTellEveryPatch | web/src/lib/render/fence.ts:328-452 | for every message the callbacks announce each block once, and each patch it counts with its number, in order |
| ToolHistory.ToolHistoryValidator.ValidateMessage | internal/pkg/core/chats/stream.go:1413-1435 | a message is accepted and the pending calls updated exactly as the grammar of exchanges says; an error names the message and what is wrong with it |
| ToolHistory.ToolHistoryValidator.ValidateAssistantMessage | internal/pkg/core/chats/stream.go:1450-1473 | an answer is accepted exactly when it has no result metadata and its calls have distinct ids and names; its calls become pending |
| ToolHistory.ToolHistoryValidator.ValidateToolResult | internal/pkg/core/chats/stream.go:1507-1543 | with calls pending only a result for one of them is accepted, and it settles that call |
| ToolHistory.ValidateToolHistory | internal/pkg/core/chats/stream.go:1393-1407 | accepts exactly the valid histories; otherwise reports the first rejected message with its fault, or that results are missing at the end |
| ToolHistory.WholeUnitIsValid | internal/pkg/core/chats/stream.go:1393-1543 | an assistant message with exactly one result per call, in any order, passes the validator |
| ToolHistory.FlattenIsValid | internal/pkg/core/chats/stream.go:1192-1213 | valid turns one after the other make a valid history |
| PromptSelection.HistoryUnits | internal/pkg/core/chats/history_selection.go:154-179 | the index loops split a history into the units of the specification, injections skipped |
| PromptSelection.UnitsAreWhole | internal/pkg/core/chats/history_selection.go:154-179 | splitting a valid history loses nothing, and every unit is a whole exchange or a plain message |
| PromptSelection.ValidExactlyWhenWholeUnits | internal/pkg/core/chats/stream.go:1393-1543 | the validator accepts a history if and only if it is the concatenation of its units and each is whole |
| PromptSelection.UnitBoundariesAreSettledPoints | internal/pkg/core/chats/history_selection.go:154-179 | unit boundaries of a valid history are exactly the points with no pending calls |
| PromptSelection.SelectPromptHistory | internal/pkg/core/chats/history_selection.go:60-106 | the retained history is the longest run of newest units found by adding units until one does not fit; a failed count is reported as such |
| PromptSelection.NewPromptContext | internal/pkg/core/chats/history_selection.go:108-152 | every reported number is the count it is named for, of the retained history; an error means one of these counts failed |
| PromptSelection.KeptExactly | internal/pkg/core/chats/history_selection.go:54-58 | a number of units is kept if and only if every non-empty suffix up to it fits the budget and the next longer one does not |
| PromptSelection.LargerBudgetKeepsMore | internal/pkg/core/chats/history_selection.go:60-106 | a larger budget never drops a unit kept by a smaller one |
| PromptSelection.UnitsDropOnlyInjections | internal/pkg/core/chats/history_selection.go:154-179 | splitting into units drops the injections and nothing else |
| PromptSelection.TotalsAddUpExactly | internal/pkg/core/chats/history_selection.go:85-105 | omitted and retained messages are all that are not injections; omitted and retained turns are all the units if and only if no retained call unit is followed by one that starts on a tool message |
| PromptSelection.ValidTotalsAddUp | internal/pkg/core/chats/history_selection.go:138-151 | for a valid history whose injections are system messages, as loading gives it, message and turn totals always add up |
| PromptSelection.NewestResplitsExactly | internal/pkg/core/chats/history_selection.go:146-149 | splitting the retained messages again gives the retained units, and as many, if and only if no two adjacent ones are a call and a unit that starts on a tool message |
| PromptSelection.NewestResplits | internal/pkg/core/chats/history_selection.go:146-149 | without injections that is always so |
| PromptSelection.SelectionIsValid | internal/pkg/core/chats/history_selection.go:54-59 | whatever the budget, what is selected from a valid history passes the validator |
| StoredHistory.TurnRows | internal/pkg/core/chats/stream.go:1083-1106 | the loop converts exactly the messages that belong in history, in order, or reports the first that cannot be stored |
| StoredHistory.HistoryMessagesFromRows | internal/pkg/core/chats/stream.go:1252-1275 | the messages replayed from a turn's rows in order, the first row error, or the error that nothing is replayable |
| StoredHistory.ReplayFailsExactlyOnCorruptedRow | internal/pkg/core/chats/stream.go:1252-1343 | replaying rows fails exactly when one that would be replayed is corrupted (missing, calls that do not decode, arguments or provider reasoning that are no JSON), and reports the first such row |
| StoredHistory.CorruptedTurnIsSkipped | internal/pkg/core/chats/stream.go:1192-1213 | a turn with a corrupted row contributes nothing to the history, whatever its other rows hold |
| StoredHistory.RowIsReplayed | internal/pkg/core/chats/stream.go:1277-1391 | a sound row is replayed exactly when its role is replayed, or it is an injection, and it says something; its message says what the row says, provider reasoning only for the assistant |
| StoredHistory.RowsAreTheMessages | internal/pkg/core/chats/stream.go:1083-1127 | a run is stored exactly when each of its messages that belongs in the history can be, as one complete row for each that says what the message says |
| StoredHistory.GroupHistoryRows | internal/pkg/core/chats/stream.go:1229-1250 | one group per turn id, in order of first appearance, holding that turn's rows in order |
| StoredHistory.LoadHistory | internal/pkg/core/chats/stream.go:1172-1216 | the history is the concatenation of the complete turns that replay and validate, invalid turns skipped whole |
| StoredHistory.LoadedHistoryIsValid | internal/pkg/core/chats/stream.go:1192-1213 | whatever is in the table, a loaded history passes the validator |
| StoredHistory.RowsRoundTrip | internal/pkg/core/chats/stream.go:1277-1338 | rows written for messages read back as those messages in order, apart from reasoning text, origins and empty assistant messages |
| StoredHistory.TurnReplays | internal/pkg/core/chats/stream.go:1083-1127 | everything a turn stores is read back after the user's message |
| StoredHistory.TurnSurvivesExactlyWithoutFinalInjection | internal/pkg/core/chats/stream.go:1108-1127 | a stored turn is loaded whole exactly when its run did not end on an injection, and otherwise not at all |
| StoredHistory.FinalInjectionExample | internal/pkg/core/chats/stream.go:1108-1127 | a concrete answer that is loaded, and that is lost when an injection ends the run |
| StoredHistory.NewTurnIsAppended | internal/pkg/core/chats/stream.go:1229-1250 | a turn stored after the others is loaded after them and changes none of them |
| StoredHistory.TurnIsLoadedTogether | internal/pkg/core/chats/stream.go:1229-1250 | however a turn's rows are interleaved with others, its messages stand together at the place of its first row |
| StoredHistory.NextLoadHasTheTurn | internal/pkg/core/chats/stream.go:1172-1216 | after a turn completes the next load is the earlier history followed by the turn, normalised |
| TurnTable.TurnCheckpoint.Append | internal/pkg/core/chats/turn_checkpoint.go:56-72 | a delta's text extends the content and its reasoning the reasoning; anything but an empty delta waits to be saved |
| TurnTable.TurnCheckpoint.Add | internal/pkg/core/chats/turn_checkpoint.go:49-59 | a delta is remembered at once and saved only when the interval has passed |
| TurnTable.TurnCheckpoint.Flush | internal/pkg/core/chats/turn_checkpoint.go:76-82 | a dirty checkpoint is saved, a clean one left alone |
| TurnTable.TurnCheckpoint.Save | internal/pkg/core/chats/turn_checkpoint.go:84-106 | only a save reported as successful makes the checkpoint clean |
| TurnTable.TurnCheckpoint.Upsert | internal/pkg/core/chats/turn_checkpoint.go:108-149 | the turn's checkpoint row is updated if found and created otherwise, unless the lookup or the write fails |
| TurnTable.StepKeeps | internal/pkg/core/chats/stream.go:987-1081 | every transaction, lookup, write, delta and stop of every turn keeps the table invariant |
| TurnTable.TurnStarts | internal/pkg/core/chats/stream.go:1129-1166 | a new turn has one incomplete user row and streams exactly when that row was reported as saved |
| TurnTable.TurnsAreAtomic | internal/pkg/core/chats/stream.go:987-1081 | in every reachable table the rows of a turn are all incomplete (one user row, at most one checkpoint) or all complete with the user row |
| TurnTable.CheckpointIsPrefix | internal/pkg/core/chats/turn_checkpoint.go:18-20 | in every reachable table the stored checkpoint's content is a prefix of the joined texts of the deltas received and its reasoning of their joined reasonings, and all of them when nothing waits to be saved; without a stored one, nothing waiting means nothing streamed |
| TurnTable.WaitingCanBeSaved | internal/pkg/core/chats/turn_checkpoint.go:76-137 | a checkpoint that waits can be saved in every reachable table, and the stored one is then all of what was streamed |
| TurnTable.FailuresChangeNothing | internal/pkg/core/chats/turn_checkpoint.go:76-137 | a lookup, save, pending message or completion that fails in the database changes no row, and what was to be saved still waits |
| TurnTable.NothingNewNothingSaved | internal/pkg/core/chats/turn_checkpoint.go:49-82 | an empty delta leaves nothing to save, and a checkpoint is looked up and saved only when something waits |
| TurnTable.StoppedTurnIsOver | internal/pkg/core/chats/stream.go:943-988 | a turn whose run stopped takes no other step |
| TurnTable.SavingIsFindAndWrite | internal/pkg/core/chats/turn_checkpoint.go:76-137 | a save as the checkpoint does it in place is the lookup and the write of the state machine |
| TurnTable.CompletionOnAnyTable | internal/pkg/core/chats/stream.go:1015-1081 | on any table the completing transaction removes exactly the turn's incomplete assistant rows, adds the new ones and completes the one incomplete user row, or is refused when there is not exactly one |
| TurnTable.CompletionIsNeverRefused | internal/pkg/core/chats/stream.go:1043-1081 | while a turn streams there is exactly one pending user row, so the completing transaction is never rolled back for that reason |
| TurnTable.RunIsStored | internal/pkg/core/chats/stream.go:943-1081 | whatever messages a run hands over while its turn streams, their rows can be completed, and are what the turn then has |
| TurnTable.LoadingSeesWholeTurns | internal/pkg/core/chats/stream.go:1172-1190 | loading sees of each turn nothing, or the user's message and everything the run handed over |
| TurnTable.CompletedTurnIsLoaded | internal/pkg/core/chats/stream.go:943-1081 | a turn completed with a run's messages is loaded as the user's message and those messages, or dropped if it ended on an injection |
| TurnLocks.ChatTurnLockRegistry.Join | internal/pkg/core/chats/turn_locks.go:30-43 | a caller takes a reference to the chat's lock, made with its token if there was none |
| TurnLocks.ChatTurnLockRegistry.ReleaseRef | internal/pkg/core/chats/turn_locks.go:64-72 | giving a reference back removes the entry when it was the last |
| TurnLocks.StepKeeps | internal/pkg/core/chats/turn_locks.go:26-72 | every step keeps each lock's references equal to its users and its token in one place |
| TurnLocks.OneHolderPerChat | internal/pkg/core/chats/turn_locks.go:26-62 | for any number of goroutines, interleaving and cancellation, at most one has a chat's turn, across deletion and recreation of its entry |
| TurnLocks.EntryWhileReferenced | internal/pkg/core/chats/turn_locks.go:64-72 | a chat has an entry exactly while some goroutine holds, waits or has yet to release, and the entry counts them |
| TurnLocks.SendNeverBlocks | internal/pkg/core/chats/turn_locks.go:47-61 | handing the token back never blocks |
| TurnLocks.TurnIsFreeExactlyWithoutHolder | internal/pkg/core/chats/turn_locks.go:40-61 | a waiting goroutine can take its chat's turn if and only if no goroutine of that chat has it, whatever other chats do |
| TurnLocks.WaiterCanGiveUp | internal/pkg/core/chats/turn_locks.go:40-45 | a waiting goroutine can always give up, which moves no token and no other goroutine |
| TurnLocks.SomeoneCanGoOn | internal/pkg/core/chats/turn_locks.go:26-72 | while any goroutine is left, one can go on without a new call or a cancellation: no wakeup is lost |
| TurnLocks.NothingLeaks | internal/pkg/core/chats/turn_locks.go:68-71 | once every goroutine is done no entry is left |
| TurnLocks.CallerRestoresRegistry | internal/pkg/core/chats/turn_locks.go:26-62 | a caller that gives up, or that locks and unlocks, leaves every entry and every earlier lock as it found them |
| UpstreamSlots.WrapDriver | internal/pkg/upstreams/runtime.go:22-73 | a driver is wrapped exactly when nothing is missing and the limits are limits, and starts with no slot taken; an error names what was wrong |
| UpstreamSlots.RuntimeDriver.Finish | internal/pkg/upstreams/runtime.go:266-291 | a finished call frees its slot, then records the driver's outcome |
| UpstreamSlots.StepKeeps | internal/pkg/upstreams/runtime.go:125-309 | every queue, driver, timer, select and drain step keeps slots, releases and health records in balance |
| UpstreamSlots.SlotsAreConserved | internal/pkg/upstreams/runtime.go:125-309 | occupied slots are the calls awaited plus the timed-out calls not yet drained and released; drivers in flight never exceed the limit |
| UpstreamSlots.ReleasedOnce | internal/pkg/upstreams/runtime.go:176-178 | a slot is released at most once; of the calls that returned to their caller, exactly those that had a slot and are not still drained have released it |
| UpstreamSlots.OneOutcomeEach | internal/pkg/upstreams/runtime.go:266-309 | a call that returned to its caller, timed out or not, has exactly one health outcome, and it is what happened: the driver returned so, the deadline named passed, or the caller gave up; before that it has none |
| UpstreamSlots.OutcomeHappened | internal/pkg/upstreams/runtime.go:125-309 | in every run, the one outcome of a call that returned names what the run has: that driver result, that deadline without a token seen, or that cancellation before or after a slot was got; and the call released its slot once if it got one and is over, else not |
| UpstreamSlots.EveryOutcomeHappens | internal/pkg/upstreams/runtime.go:125-309 | each of the six outcomes is that of a run in which the call ends and its slot is free |
| UpstreamSlots.ReleaseNeverBlocks | internal/pkg/upstreams/runtime.go:176-178 | releasing a slot never blocks |
| UpstreamSlots.NoFirstTokenTimeoutAfterToken | internal/pkg/upstreams/runtime.go:227-243 | once await has seen the first token, the first-token deadline can no longer end the call |
| UpstreamSlots.NoTokenAfterReturn | internal/pkg/upstreams/runtime.go:293-309 | once the call has returned to its caller no first token is passed on |
| UpstreamSlots.TokenMayLoseTheRace | internal/pkg/upstreams/runtime.go:223-243 | a token sent but not yet seen does not stop the deadline |
| UpstreamSlots.SomeoneCanGoOn | internal/pkg/upstreams/runtime.go:125-309 | with no driver running and a call unfinished, the wrapper itself can go on: no slot is lost |
| McpManager.Manager.BumpGeneration | internal/pkg/mcp/manager.go:508-515 | a lifecycle call starts a generation of its own |
| McpManager.Manager.SetStatusIfCurrent | internal/pkg/mcp/manager.go:521-532 | a status is merged in exactly when its generation is current |
| McpManager.Manager.BumpAll | internal/pkg/mcp/manager.go:870-879 | closing supersedes the current generation of every known server |
| McpManager.StaleAttemptsChangeNothing | internal/pkg/mcp/manager.go:173-185 | once a lifecycle call moved a server past a generation, no mark, result, forced timeout or client death of it changes any status or arms a retry, in any later step |
| McpManager.MarkRecordsAttempt | internal/pkg/mcp/manager.go:186-197 | an applied mark: connecting since the attempt's start, every other time and the last error kept |
| McpManager.SuccessRecordsSuccess | internal/pkg/mcp/manager.go:534-547 | an applied success: connected with its tools, its time as that of a success, its duration, the failure time and last error kept |
| McpManager.FailureRecordsFailure | internal/pkg/mcp/manager.go:549-566 | an applied failure: failed with its reason and message, its time as that of a failure, its duration, the success time kept |
| McpManager.DeadlineRecordsTimeout | internal/pkg/mcp/manager.go:283-294 | an applied forced timeout: a failure of a server that does not respond |
| McpManager.DeathRecordsFailure | internal/pkg/mcp/manager.go:415-430 | an applied client death: a failure that belongs to no attempt, attempt time and duration kept |
| McpManager.StoppingRecords | internal/pkg/mcp/manager.go:449-493 | removing forgets the status, disabling keeps its times and last error |
| McpManager.OtherStatusesStay | internal/pkg/mcp/manager.go:508-532 | no step changes the status of another server, and no other kind of step changes any |
| McpManager.RetryIsArmedExactlyAfterFailure | internal/pkg/mcp/manager.go:280-342 | a retry is armed exactly by an applied forced timeout, client death or failure of an attempt other than an Add, for that server and generation |
| McpManager.RetryPassesExactlyWhileFailed | internal/pkg/mcp/manager.go:656-679 | a fired retry goes on exactly while its generation is current and its server has failed; else it is over, and nothing changes |
| McpManager.ClientIsWatched | internal/pkg/mcp/manager.go:352-400 | a stored client is watched at its generation until it dies or its watcher is stopped |
| McpManager.DeadServerReconnects | internal/pkg/mcp/manager.go:395-440 | after the client of a connected server has died, the server can come to be connecting again without any lifecycle call |
| McpManager.ConnectingHasOneAttempt | internal/pkg/mcp/manager.go:186-211 | a connecting status written at the current generation belongs to exactly one attempt of that generation, still racing |
| McpManager.ConnectingWillSettle | internal/pkg/mcp/manager.go:161-185 | whatever the generation of a connecting status, one operation of the current generation is still to settle, unless the manager was closed at it |
| McpManager.ConnectingEndsExactlyWithBoundedTask | internal/pkg/mcp/manager.go:165-175 | without lifecycle calls, results or client deaths, a connecting status can end if and only if a bounded task of the server is left; if none is, the manager was closed at its generation or an Add owns it |
| McpManager.ConnectingEndsWithItsOwner | internal/pkg/mcp/manager.go:173-211 | along every run at one generation, once its owner had its result, its outer deadline, or finished removing or disabling, the status is not connecting |
| McpManager.ClosedServerHangs | internal/pkg/mcp/manager.go:855-882 | a reachable closed manager whose server stays connecting in every run until its next lifecycle call |
| McpManager.AddedServerHangs | internal/pkg/mcp/manager.go:148-166 | a reachable server that stays connecting for as long as an Add hangs |
| McpManager.LateResultAppliedExactlyWhileCurrent | internal/pkg/mcp/manager.go:280-299 | along every run after an applied forced timeout, the late result is applied if and only if no lifecycle call, retry reconnect or close of that server came in between, and otherwise changes nothing |
| McpManager.LateResultReplacesTimeout | internal/pkg/mcp/manager.go:294-298 | a reachable forced failure that a late success replaces, with another step in between |
| McpManager.TelemetryIsLatest | internal/pkg/mcp/manager.go:580-602 | each telemetry field is the newest value set since the last removal, and the rest of the status is that of the newest write |
| McpManager.DisabledStaysExactlyWithoutRetryPastCheck | internal/pkg/mcp/manager.go:468-493 | from the call of Disable on, with no other lifecycle call, the server can come to be connecting if and only if a retry had passed its check at the call |
| McpManager.RemovedStaysExactlyWithoutRetryPastCheck | internal/pkg/mcp/manager.go:442-466 | the same from the call of Remove on |
| McpManager.DisabledServerMayReconnect | internal/pkg/mcp/manager.go:656-682 | such a retry is reachable, so a disabled server may reconnect |
| McpManager.DisabledServerMayConnect | internal/pkg/mcp/manager.go:475-493 | a reachable server that Disable left as disabled, with no retry past its check any more, and that still becomes connected |
| McpManager.RemovedServerMayReconnect | internal/pkg/mcp/manager.go:442-466 | a reachable deleted server that may reconnect |
| McpManager.ClosedStaysExactlyWithoutRetryPastCheck | internal/pkg/mcp/manager.go:855-882 | after closing, with no lifecycle call on it, a server can come to be connecting if and only if a retry of it had passed its check |
| McpManager.NothingConnectsOnceStopped | internal/pkg/mcp/manager.go:449-493 | without such a retry, in every run after Remove, Disable or Close the status is what it was, disabled or forgotten: never connecting, connected or failed anew |
| McpManager.StopLasts | internal/pkg/mcp/manager.go:449-493 | without such a retry, once Remove or Disable has returned, the server is forgotten, or disabled, and stays so in every run |
| McpManager.ClosedManagerMayConnect | internal/pkg/mcp/manager.go:872-876 | such a close is reachable |
| ServiceOrder.BuildDepGraph | internal/pkg/service-manager/service_manager.go:756-796 | in-degrees count the dependency entries that name present services, and the dependents mirror them entry by entry |
| ServiceOrder.TopoSort | internal/pkg/service-manager/service_manager.go:798-848 | level by level, the groups are the levels of the dependency graph, and sorting succeeds exactly without a cycle |
| ServiceOrder.ResolveOrder | internal/pkg/service-manager/service_manager.go:747-754 | ordering succeeds exactly when the dependencies among present services have no cycle |
| ServiceOrder.StuckExactlyOnCycles | internal/pkg/service-manager/service_manager.go:843-845 | when a level is empty, services are left over exactly when there is a cycle |
| ServiceOrder.EveryServiceOnce | internal/pkg/service-manager/service_manager.go:817-841 | the groups hold every service exactly once |
| ServiceOrder.DependenciesComeFirst | internal/pkg/service-manager/service_manager.go:828-838 | every present dependency is in a strictly earlier group |
| ServiceOrder.GroupIsLongestChain | internal/pkg/service-manager/service_manager.go:817-841 | the group of a service is the length of its longest dependency chain |
| ServiceOrder.OnlyPresentNamesMatter | internal/pkg/service-manager/service_manager.go:775-792 | repeated and absent dependency names change no level |
| Graphs.LongChainIsCyclic | internal/pkg/service-manager/service_manager.go:843-845 | a dependency chain longer than the number of services runs through a cycle |
| RootRecovery.RecoverRoot | web/src/lib/render/recover-root.ts:22-46 | a dangling root is rewired to the sole element nobody lists, and nothing else changes |
| RootRecovery.RewiredRoot | web/src/lib/render/recover-root.ts:11-21 | a spec changes exactly when its root dangles and there is a sole top; the new root is a defined element no element lists, from which, without a cycle, every element is reachable |
| RootRecovery.RecoveryIsIdempotent | web/src/lib/render/recover-root.ts:29-31 | recovering twice is recovering once, on every spec |
| RootRecovery.RefusalIsAmbiguity | web/src/lib/render/recover-root.ts:40-43 | without a cycle, a dangling root is left alone if and only if the spec is empty or has several tops |
| ChatSearching.PatternMatchesSubstring | internal/pkg/core/chats/search.go:23-39 | for every title and every search that is not blank, the built pattern matches exactly the titles that contain the normalised text, wildcards and escapes included |
| ChatSearching.LoweredPatternMatches | internal/pkg/db/repositories/chats.gen.go:264-267 | the query, which lowers both sides, selects exactly the titles that contain the text in lower case |
| ChatSearching.NoFilterWhenBlank | internal/pkg/core/chats/search.go:10-27 | the pattern is empty, and the filter off, exactly for blank searches |
| ChatSearching.NormalisingTwice | internal/pkg/core/chats/search.go:12-21 | normalising is idempotent exactly when the cut at the length limit does not end on a space |
| ChatSearching.EscapingExample | internal/pkg/core/chats/search.go:23-39 | percent sign, underscore and exclamation mark are each escaped by an exclamation mark |
| EventStream.DecodeFrame | web/src/lib/api/stream.ts:146-179 | a frame gives the event of its last event and data lines, or nothing |
| EventStream.DecodeFrames | web/src/lib/api/stream.ts:99-141 | however the text is cut into chunks, even inside a blank line, the events are those of the whole text |
| EventStream.DecodingUndoesFraming | web/src/lib/api/stream.ts:95-133 | a concatenation of well-formed frames, the last of them terminated or not, gives exactly their events, in order |
| Rebound.ExponentialDelay | pkg/rebound/rebound.go:171-190 | the multiplying loop with its early exit computes the closed form |
| Rebound.RoundIsNearest | pkg/rebound/rebound.go:189-189 | rounding is to a nearest whole number, halves up |
| Rebound.DelayIsAskedOrBackoff | pkg/rebound/rebound.go:146-163 | without jitter the delay is the positive one the server asked for, capped at the maximum, or else the backoff |
| Rebound.JitteredDelay | pkg/rebound/rebound.go:165-169 | with jitter it is half of that plus the random share of the other half, shares outside zero to one counting as these |
| Rebound.GrowingDelayIsGeometric | pkg/rebound/rebound.go:171-190 | for a multiplier of at least one the delay is min(maximum, round(initial * multiplier^(attempt-1))) |
| Rebound.ShrinkingDelayIsGeometric | pkg/rebound/rebound.go:171-190 | for a shrinking multiplier it is so exactly when the initial delay is below the maximum, or the product still rounds to it |
| Rebound.ShrinkingIgnoredExample | pkg/rebound/rebound.go:180-187 | a concrete configuration whose shrinking multiplier is ignored |
| Rebound.JitterBounds | pkg/rebound/rebound.go:158-168 | jitter keeps a delay between its half and itself |
| Rebound.JitterEnds | pkg/rebound/rebound.go:165-202 | a random share of zero or less leaves half of the delay, of one or more all of it |
| Rebound.Run | pkg/rebound/rebound.go:42-73 | the loop is the recursive run of attempts, decisions and waits, and the return after it is never taken |
| Rebound.RunIsLawful | pkg/rebound/rebound.go:42-144 | in every run each attempt but the last had a retryable error with an attempt and time left and was followed by exactly its delay; the last one succeeded, was not retryable, had no attempt or no time left, or was to be retried and its wait was interrupted: the run never gives up early |
| Rebound.RunIsBounded | pkg/rebound/rebound.go:42-126 | at most maxAttempts attempts, every delay at most maximumDelay, and the waits sum to at most maximumElapsed |

## Left out

- Strings are sequences of Unicode scalar values: lone UTF-16 surrogates, the decoding of UTF-8 bytes and JavaScript's indexing by code units are not modelled.
- Parsing and applying patches, JSON parsing of event data, token counting, tool-call JSON encoding and tokenisation are parameters; the patches of `FenceRecovery` and `FenceBlocks` are assumed to be read the same with and without space before them and before their final brace, and those of `FenceBlocks` to be read as patches.
- The database's lower-casing is a function from characters to characters that maps `!`, `%` and `_`, and nothing else, to themselves.
- The callbacks of the fence parser are a list of events in the order in which they fire; the two texts that repeat a complaint's wording are not modelled.
- Mutation of a segment object that a renderer still holds: segments are values that the parser replaces.
- Keys of `Object.prototype` in an element map, and children lists that are missing rather than empty, in root recovery.
- Iteration order of Go maps: groups are proved as sets of services listed once each.
- Services that start, stop and fail, and the logging of absent dependencies.
- Panics inside goroutines, and what a process crash does to locks and slots: a crash ends all goroutines of the process.
- Several processes sharing one database: the turn lock is per process.
- The second and later calls of the unlock function, which `sync.Once` makes do nothing.
- The map of live MCP clients, exact retry timers (a timer may fire or be stopped at any time while it exists), and wrap-around of the 64-bit generation counter.
- Rows of other chats, soft deletion, primary keys beyond being distinct, and the chat's own row (model and activity time).
- A database write that takes effect only after its caller was told that it failed and has gone on.
- Wall-clock time: clocks are numbers that steps carry, first-token and turn deadlines fire at any step at which their timer is running.
- Rounding of floating-point numbers, overflow of 64-bit durations, and infinities, in retry delays.
- Selection of models, fallbacks between candidates, presets, titles, HTTP handlers, generated code and the user interface: plumbing, or true but easy.
