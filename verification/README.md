# Verified model of the enclave agent

A Dafny 4.11 model of an agent that runs inside a trusted execution environment, with
proofs about whole runs of it. `dafny verify dfyconfig.toml` checks everything.

The model follows the code. Values are datatypes; lists, connections, files, stores and
tables that the code changes in place are fields of classes whose methods are proved
against functions, and the properties are lemmas about these functions.

| modules | what they model |
|---|---|
| `Models`, `Text`, `Truncation` | content blocks, messages, step costs; Python string operations; shortening of tool outputs |
| `Compaction`, `SummaryContents` | token estimates and history compaction, and what the summary tells of the messages it replaces |
| `AgentLoop`, `Controller` | the step loop of `run_task` and `run_conversation_turn`: as a state machine, and with shared lists updated in place |
| `LoopAccounts`, `LoopEvents`, `Checkpoints`, `Transcript`, `Endings` | money, the event stream and its checkpoints, the attested transcript, the endings and the request sizes of a run |
| `RoundContents`, `SessionResults`, `EventContents` | what a round puts into the history, the steps and the events: every output under its own call, over single steps, whole runs and whole sessions |
| `Pairing`, `GuardExits`, `Requests` | tool calls and tool results over whole sessions, and where their pairing is lost |
| `Providers`, `Translations`, `Gemini`, `SessionNames`, `ThinkingBlocks` | the histories in the OpenAI format and their way back, the tool names in the Gemini format, and the thinking that no format contains |
| `Framing`, `Timeouts` | length-prefixed frames over chunked streams, the Go peer, and read timeouts |
| `Exchange`, `Client`, `SharedQueue`, `EventStreams` | the server's loop, its event streamer, the client, the one event queue of the controller, and the way of an event from the step loop to the client |
| `Matching`, `Editing` | `str.count`, `str.replace` and the two edit tools |
| `Ledger`, `TaskHandler` | the task database under interleaved handlers, and one handler as a sequence of statements |
| `VectorStore`, `MemoryManager` | the bounded store with ranked search, and its sealed collections |
| `GrepSearch`, `KeyRing`, `Sealing` | capped search, key rotation, PCR key material |

## How the environment is modelled

The model provider and the tools are arbitrary. A `World` says for every step what the
provider does (stream chunks, then reply, raise, or be cut off by the timeout) and what
becomes of the round of tools (deliver any outputs, raise, or be cut off). Every theorem
quantifies over all worlds, so it holds for every behaviour. A run is cut off by its timeout
at these two places, since putting an event into the unbounded queue does not suspend, or
before its first statement, when the timeout is not positive: `run_task` gets its limits
from the request unchecked (enclave/main.py:226-228). For the same reason a limit that is no
number raises before the first event, and tool arguments that are JSON but no object, which
enclave/agent/llm_client.py:684-690 lets through, raise after only some calls of the round
are announced. The compaction limit, 70 percent of the provider's context window, is a
number. Cancelling the event streamer and interleaving the single statements of database
handlers are arbitrary schedules, and what a failed write leaves in a file is arbitrary.
JSON is a codec that reads back what it prints, prints at least two bytes and parses no
proper prefix of what it printed (JSON objects, section 4 of RFC 8259). Money is counted in
whole micro-dollars, `3 * input + 15 * output`.

## Where a natural claim is false

* Compaction keeps tool results with their calls only if its cut does not land on results
  (`CompactionPairingExact`, `SessionPromptsExact`). In sessions whose turns end with a reply
  it never does (`SessionStaysPaired`). After a turn that ended at a guard it can, although
  no tool round was cut off (`GuardExitLeavesResultsLast`, `ThirdRequestExactly`); such
  sessions keep their pairing exactly as long as no step makes a bad cut
  (`SessionPairedExactly`). After a round that was cut off, requests are unpaired until a
  later cut takes the fault away (`FaultIsCutAway`).
* Compaction is documented to make the history fit its target. It does so exactly if the
  history fits already or the messages it keeps leave room for the summary
  (`CompactedFits`).
* `edit_file` promises that `old_str` matches exactly one location. It counts matches that do
  not overlap, so the promise holds on all texts exactly for strings that do not overlap
  themselves (`PromiseIsKeptExactly`), and for these strings only is the order of edits at
  disjoint places irrelevant (`CommutesExactly`).
* A read timeout of the server is harmless exactly near a frame boundary (`InSyncExactly`).
* The controller has one event queue for all tasks; every connection streams its own task's
  events exactly if no task starts between another one's start and last event
  (`QueuesAreOwnExactly`).
* "A checkpoint every 5 tool calls": over a turn, the multiples of five at which no round
  ended are missing (`CheckpointsExactly`); six calls at once already skip one
  (`SixCallsAtOnce`).
* The attestation guide's recipe for the task hash (docs/attestation-guide.md:64) joins
  different parts than enclave/agent/controller.py:537-539 does; it never gives the attested
  text (`DocumentedRecipeNeverMatches`). The model follows the code.
* A store of capacity zero evicts nothing (`CapacityExactly`), and `list_recent(0)` returns
  everything (`RecentsAreNewest`): both take the slice `[-0:]`.
* Search results are called capped when there are exactly fifty and none is left out
  (`CappedThoughComplete`).

## Model

| member | source | states |
|---|---|---|
| Models.SonnetPricing | enclave/agent/models.py:167-190 | a response costs three dollars for a million input tokens and fifteen for a million output tokens, and costs add up |
| Models.CallIsListed | enclave/agent/models.py:155-164 | the call in block i comes right behind those of the blocks before it; `Models.ListedIsCall` is the way back |
| Models.ResultIsListed | enclave/agent/llm_client.py:374-380 | the same for results, with `Models.ListedIsResult` |
| Text.JoinHolds | enclave/agent/models.py:141-144 | a joined text holds each part in full at its place, the separator behind all but the last, and nothing else |
| Text.DecimalReads | enclave/agent/controller.py:168-169 | a number is printed as the decimal digits that read as it |
| Text.LinesUndoJoin | enclave/agent/controller.py:537-539 | splitting a newline-joined text gives back the parts exactly when no part holds a newline |
| Truncation.TruncateKeepsEnds | enclave/agent/controller.py:189-198 | outputs up to the limit are unchanged; longer ones get strictly shorter, keep their first and last ten thousand characters, and between them a marker whose number, read with its commas, is the number of characters dropped |
| Compaction.TextEstimate | enclave/agent/controller.py:75-77 | a token for every four characters, the rest not counted, and at least one |
| Compaction.HistoryEstimate | enclave/agent/controller.py:80-103 | the estimate of a history adds up those of the system prompt and of every text in it (names and arguments of calls, contents of results, thoughts), and four for each message |
| Compaction.EstimateMessagesTokens | enclave/agent/controller.py:98-103 | the estimating loop computes the sum of the message estimates |
| Compaction.PreviewMessage | enclave/agent/controller.py:140-159 | the block loop computes the preview of a message, cut to 200 characters |
| Compaction.CompactHistory | enclave/agent/controller.py:106-186 | the accumulating loops return the first message, one summary and the last six, or the history itself in the three early returns |
| Compaction.GuardedCompaction | enclave/agent/controller.py:714-731 | at the guard, the early returns for a short or fitting history never fire; seven messages come back unchanged; from eight on the result has eight messages, the first kept and the last six unchanged |
| Compaction.SummaryIsShort | enclave/agent/controller.py:138-171 | the summary's estimate is bounded by a constant plus the digits of the overflow count |
| Compaction.CompactionSavesTokens | enclave/agent/controller.py:126-173 | the estimate drops exactly when the middle costs more than its summary, hence whenever it exceeds the bound |
| Compaction.CompactedFits | enclave/agent/controller.py:106-173 | for every history: the result fits the target exactly if the history does, or it has at least eight messages and the kept ones leave room for the summary |
| Compaction.KeptMessagesDecide | enclave/agent/controller.py:130-173 | without looking at the middle: it fits if the kept messages leave room for the largest summary, and does not if they alone fill the target |
| SummaryContents.SummaryTells | enclave/agent/controller.py:138-171 | the summary of any messages is the header, then one line for each of the first thirty that are not blank, in order and with its own role, then the number of the others: see `SummaryContents.Tells`, `Describes`, `Shows` |
| SummaryContents.CompactionTells | enclave/agent/controller.py:106-173 | whenever compaction changes a history, its second message is such a summary of the messages between the first and the last six |
| SummaryContents.BlockIsTold | enclave/agent/controller.py:145-159 | in a line of blocks every text, call (name and arguments) and result (ok or error, and preview) is told in full, at its place, where the 200 characters reach |
| SummaryContents.PlainMessageTold | enclave/agent/controller.py:142-162 | a plain message with ink in its first 200 characters is told, one of white space is not |
| SummaryContents.ToolMessageTold | enclave/agent/controller.py:145-162 | every message with a call or a result is told |
| LoopAccounts.RoundCostsItsResponse | enclave/agent/controller.py:614-626 | the step results of one tool round together cost what the response cost, once |
| LoopAccounts.CostConservation | enclave/agent/controller.py:598-626 | recorded cost plus the one response of a cut-off tool round equals everything received; without such a cut-off nothing is lost |
| LoopAccounts.BudgetBound | enclave/agent/controller.py:693-712 | every call is made below the budget with all earlier responses counted; at most max_steps calls; the final cost is below the budget plus the last response; for both loops |
| Endings.EndingHasCause | enclave/agent/controller.py:449-666 | every run ends for exactly one reason, which its ending names: all requests but the last asked for tools that returned; the last one too if a limit was reached, else it is the one that answered, failed or timed out, alone or in its round |
| Endings.ResultTells | enclave/agent/controller.py:369-447 | a task succeeds exactly if its stream ends with the final reply, which is the text of its result, and only then the description and the steps are attested; otherwise result and stream name the same ending |
| Endings.TaskLimits | enclave/agent/controller.py:365-367 | limits of zero stand for fifty steps, five dollars and the default timeout: calls, spending and the first request keep to them |
| Endings.RequestsAreBounded | enclave/agent/controller.py:714-731 | every request of every turn, whatever history it began with, fits the context window or has at most eight messages |
| Endings.GuardActsExactly | enclave/agent/controller.py:714-742 | the guard reports a checkpoint exactly in a turn whose history is over the limit and has more than six messages; then eight messages are left, but of seven none is dropped; in any other case nothing changes |
| LoopEvents.EventsFollowGrammar | enclave/agent/controller.py:380-666 | every run, also one that is cut off before it begins or while calls are announced, emits rounds of thinking, chunks, n >= 1 tool calls and the n results of the same tools in order, numbered from 1, then one fitting terminal event |
| LoopEvents.ErrorNumbers | enclave/agent/controller.py:407-666 | the error of the step guard comes behind exactly max_steps rounds under that number; the error of a run that was cut off bears the number of tools that returned, in a turn one more |
| LoopEvents.TerminalIsLast | enclave/agent/controller.py:553-558 | an accepted trace has exactly one terminal event, at its end |
| LoopEvents.CompletedCallsReturned | enclave/agent/controller.py:576-638 | in a completed trace the tools that returned are the tools that were called, in order |
| EventContents.EventsTellCalls | enclave/agent/controller.py:475-600 | in every run the stream tells under the number of each step the chunks of its own call of the provider, each once and in order, then the names of the tools asked for, in order: all of them, unless the run was cut off in that round |
| EventContents.EventsTellSteps | enclave/agent/controller.py:602-638 | in every run the stream tells of the tools that returned exactly what the recorded steps say: the same tools in the same order, each with its success |
| Checkpoints.CheckpointsExactly | enclave/agent/controller.py:891-901 | over a whole turn the checkpoints reported are the multiples of five at which a round ended; the number missing is the rest, and none is missing exactly if a round ended at each multiple |
| Checkpoints.SixCallsAtOnce | enclave/agent/controller.py:891-901 | a turn of one round with six calls misses its checkpoint |
| Transcript.TranscriptIsRecomputable | enclave/agent/controller.py:533-539 | the attested parts are a function of the description and the returned steps |
| Transcript.TranscriptTells | enclave/agent/controller.py:533-539 | the attested parts of every completed task: the description, name and result of each tool step in order, the final reply |
| Transcript.TranscriptIsReadable | enclave/agent/controller.py:537-539 | the parts can be read back from the attested text exactly when each is one line |
| Transcript.TranscriptIsInjective | enclave/agent/controller.py:537-539 | different transcripts of one-line parts attest to different texts |
| Transcript.MultilinePartsCollide | enclave/agent/controller.py:627 | a two-line tool result reads like two parts |
| Transcript.DocumentedRecipeNeverMatches | docs/attestation-guide.md:57-66 | the documented recipe gives the attested text of no completed task |
| Pairing.CompactionPairingExact | enclave/agent/controller.py:120-173 | for every history behind a plain first message: what compaction returns is paired exactly if the recent messages are, or the history itself where it does nothing |
| Pairing.CompactionOfPaired | enclave/agent/controller.py:120-173 | compaction keeps a paired history paired exactly if it does nothing or its cut is not on tool results |
| Pairing.CutOfAlternating | enclave/agent/controller.py:130-133 | with alternating roles and the user last, the cut lands on an assistant message |
| Pairing.GuardKeepsPairing | enclave/agent/controller.py:714-731 | the context guard keeps pairing, alternation and the first message |
| Pairing.ReplyKeepsPairing | enclave/agent/controller.py:779-904 | a finished round keeps the history paired, a final reply returns it to the user, a cut-off round leaves dangling calls |
| Pairing.TurnKeepsPairing | enclave/agent/controller.py:684-947 | all requests of a turn are paired and start with the first message; the history left is paired exactly if no round was cut off |
| Pairing.SessionStaysPaired | enclave/agent/controller.py:668-947 | the same for the last turn of any session whose earlier turns replied, through any number of compactions |
| Pairing.PromptPairingExact | enclave/agent/controller.py:714-776 | from any history, whatever ended earlier turns and rounds, a request is paired exactly if the guard leaves a paired history |
| Pairing.SessionPromptsExact | enclave/agent/controller.py:668-947 | in every session each request is made for one head of a step and is paired exactly if the guard leaves a paired history of it |
| Pairing.FaultIsCutAway | enclave/agent/controller.py:714-776 | a dangling call or an orphaned result spoils every request until the guard cuts behind it |
| Pairing.SessionPairedExactly | enclave/agent/controller.py:668-947 | in a session without cut-off rounds, however its turns ended, all requests are paired exactly if no step makes a bad cut |
| GuardExits.GuardExitLeavesResultsLast | enclave/agent/controller.py:696-712 | every turn that the cost or step guard ends, on any history, leaves its last tool results last unless the guard let no step begin, and the next user message breaks the alternation of roles |
| GuardExits.ThirdRequestExactly | enclave/agent/controller.py:684-731 | a two-turn session with all tool rounds finished, for any limit: its third request is paired exactly if the history fits the context window |
| GuardExits.GuardExitBreaksPairing | enclave/agent/controller.py:906-915 | the session loses its pairing whenever its first message and the system prompt alone exceed the limit |
| Controller.AgentController.AskModel | enclave/agent/controller.py:744-776 | reports, calls and streams: the exact events and the exact request |
| Controller.AgentController.CollectResults | enclave/agent/controller.py:602-638 | the result loop appends exactly the round's results, steps, parts and events |
| Controller.AgentController.RunStepLoop | enclave/agent/controller.py:449-666 | the task loop on shared lists does exactly what the state machine does |
| Controller.AgentController.RunTask | enclave/agent/controller.py:347-447 | result, events and requests of a task, with failures and timeouts caught |
| Controller.AgentController.GuardContext | enclave/agent/controller.py:714-742 | the guard replaces the caller's history in place |
| Controller.AgentController.InnerLoop | enclave/agent/controller.py:690-915 | the turn loop on the caller's history does exactly what the state machine does |
| Controller.AgentController.RunConversationTurn | enclave/agent/controller.py:668-947 | ending, cost, history, events and requests of a turn |
| Controller.RecordsAreKept | enclave/agent/controller.py:306-309 | a run behaves the same whatever was recorded before it |
| RoundContents.RoundConveys | enclave/agent/controller.py:849-864 | the message of a round holds one result for each call, under the id of its own call and flagged exactly if that call failed: its own output, or "Error: " and its own error, in full up to 30,000 characters and otherwise with its first and last ten thousand |
| RoundContents.StepContents | enclave/agent/controller.py:744-904 | every step of both loops: behind the request come the reply as it was and the results of its own round, and a step record for each call, with tokens and text once; or the reply concludes, and is result, record, last event and, in a turn, history |
| RoundContents.ReplyHoldsTexts | enclave/agent/models.py:141-144 | the text of a reply holds all its texts that are not empty, in order, each on lines of its own |
| RoundContents.RequestAsksUsersMessage | enclave/agent/controller.py:684-685 | the first request of every turn ends with the message of the user, that of every task with its description |
| SessionResults.SessionResultsAreRecorded | enclave/agent/controller.py:668-947 | in every session, through compactions and cut-off rounds: each result that a request shows is that of a step the session recorded, in order, and where the calls still stand before the results each is that of its own call, by name, arguments and id |
| Providers.ConvertMessages | enclave/agent/llm_client.py:343-391 | the conversion loops compute the translation of the history |
| Providers.ConvertConcat | enclave/agent/llm_client.py:345-391 | the translation distributes over concatenation |
| Providers.FeedResults | enclave/agent/llm_client.py:374-382 | a run of tool messages uses up exactly the pending call ids it is a prefix of |
| Providers.AcceptedExactly | enclave/agent/llm_client.py:343-391 | each run of tool messages answers exactly the calls of the assistant message before it, in order, if and only if the history is paired |
| Translations.AnswersAreKept | enclave/agent/llm_client.py:366-382 | the tool messages of the request of any history are the results of its user messages, each with id and content, in order |
| Translations.ReplyIsKept | enclave/agent/llm_client.py:353-364 | a reply becomes one message with its texts one behind the other and its calls, by id, name and arguments |
| Translations.MixedMessageIsKept | enclave/agent/llm_client.py:366-382 | beside results, each text and each result becomes one message, in the order of the blocks; `Translations.ConvertedIsBlock`: and nothing else does |
| Translations.TextsAreKept | enclave/agent/llm_client.py:383-389 | a user message of texts keeps them, one by one |
| Translations.TranslationRestores | enclave/agent/llm_client.py:343-391 | from the request of any shaped history, such as every request of a session, the history can be restored up to thinking, the division of replies into blocks and the error flags, which this format does not have |
| Translations.TranslationIsInjective | enclave/agent/llm_client.py:343-391 | so equal requests come from histories that tell the same |
| Requests.SessionKeepsShape | enclave/agent/controller.py:805-904 | in every session, however turns end, requests and history start with the first message of the session, and user block messages hold results only and never follow each other |
| Requests.RequestsAcceptedExactly | enclave/agent/controller.py:768-776 | in every session a request is acceptable exactly if it is paired, and always if earlier turns replied |
| Gemini.LookUpName | enclave/agent/llm_client.py:1228-1239 | the nested search loops compute the name lookup |
| Gemini.NameForCall | enclave/agent/llm_client.py:1228-1239 | with unique ids a call's id finds its name, or the placeholder only if it has none |
| Gemini.ResultNames | enclave/agent/llm_client.py:1227-1246 | every result of a paired history gets the name of the call it answers |
| Gemini.NamesAfterCut | enclave/agent/controller.py:171-173 | compaction keeps ids unique; the history stays paired exactly if the cut is not on results, and else those results get the placeholder |
| SessionNames.SessionKeepsNames | enclave/agent/llm_client.py:1228-1239 | if replies give fresh tool ids, no request of a session, however its turns ended, has two calls with one id |
| SessionNames.SessionResultNames | enclave/agent/llm_client.py:1227-1246 | in such a session whose earlier turns replied, every result in every request gets the name of the call it answers, through any number of compactions |
| ThinkingBlocks.ThinkingIsNotSent | enclave/agent/llm_client.py:353-364 | the OpenAI request of a history is that of the history without its thinking |
| ThinkingBlocks.ThinkingNamesNothing | enclave/agent/llm_client.py:1217-1243 | thinking does not influence the tool names looked up |
| ThinkingBlocks.SpokenPairing | enclave/agent/llm_client.py:518-528 | the Anthropic request, with its thinking filtered out, is paired exactly if the history is |
| ThinkingBlocks.StoredThinkingExactly | enclave/agent/controller.py:779-805 | the history stored after a step holds thinking exactly if the guard left some or the reply brings some |
| ThinkingBlocks.SessionSendsNoThinking | enclave/agent/models.py:27-38 | in every session the providers see each request as if no thinking were stored |
| Framing.LengthOfHeader | enclave/vsock/protocol.py:67 | four little-endian bytes hold the length modulo 2^32 |
| Framing.HeaderIsLittleEndian | enclave/vsock/protocol.py:67 | below 2^32 the bytes of the header are the digits of the length to base 256, the least significant first |
| Framing.EncodesExactly | enclave/vsock/protocol.py:52-68 | payloads up to 16,777,216 bytes become frames, longer ones are refused |
| Framing.DecodeUndoesEncode | enclave/vsock/protocol.py:52-109 | a frame decodes to its message whatever follows |
| Framing.PrefixDoesNotDecode | enclave/vsock/protocol.py:83-97 | no proper prefix of a frame decodes: it is too short within the header and incomplete behind it |
| Framing.FramesArePrefixFree | enclave/vsock/protocol.py:52-68 | a byte string starts with at most one frame |
| Framing.StreamReader.ReadExactlyBytes | enclave/vsock/protocol.py:125-139 | the reading loop takes exactly the bytes asked for from chunks, or reports end or timeout |
| Framing.StreamReader.ReadOneFrame | enclave/vsock/protocol.py:112-149 | one read with all its errors; the header is consumed before the payload is awaited |
| Framing.ReadFrameUndisturbed | enclave/vsock/protocol.py:112-149 | a read returns the next frame and stops right behind it, however the bytes are chunked |
| Framing.ReadRejects | enclave/vsock/protocol.py:125-149 | every header and payload, not only those of frames: too long a length and a length of zero are refused by their errors, and a whole payload is taken and parsed, with the error of what it is not |
| Framing.FramesAreReadBack | enclave/vsock/protocol.py:112-149 | repeated reads of any chunking of any list of frames return exactly the list |
| Framing.GoFramesReadBackExactly | proxy/main.go:115-162 | a frame written by the proxy is read back exactly if it respects the size limit |
| Framing.DecodeAgreesWithRead | enclave/vsock/protocol.py:71-149 | decoding a buffer and reading it accept the same messages |
| Timeouts.TimeoutKeepsBoundaryExactly | enclave/vsock/server.py:70-72 | a timed-out read leaves the stream at the frame boundary exactly if the header was not consumed |
| Timeouts.InSyncExactly | enclave/vsock/server.py:68-75 | all reads start at frame boundaries and return the frames in order exactly if every timeout fires with fewer than four bytes of a frame there |
| Timeouts.TimeoutInsideFrame | enclave/vsock/protocol.py:126-139 | a timeout between a header and its payload drops the header, and the next read starts inside the frame |
| Exchange.WrittenIsPrefix | enclave/main.py:244-281 | whatever the schedule, the events written are a prefix of those emitted; only queued or oversized ones are missing |
| Exchange.AllAreEmitted | enclave/main.py:244-263 | every event that the schedule emits gets into the queue, in order |
| Exchange.StreamerWritesNext | enclave/main.py:248-263 | progress: a living streamer that runs takes the first event waiting and writes its frame, or ends if that is too large |
| Exchange.StreamerCatchesUp | enclave/main.py:244-281 | if all events fit, a streamer that runs once more for each event waiting has written every event emitted, and the queue is empty |
| Exchange.ReplyMeans | enclave/main.py:218-371 | what each type of request is answered with, type and payload: unknown types, tasks without a description, exceptions of a handler, echoes and what a handler returns |
| Exchange.OnlyTasksStream | enclave/main.py:230-246 | any request but a task with a description is answered by one frame alone |
| Exchange.ServerConnection.WriteFrame | enclave/vsock/protocol.py:152-161 | writes a whole frame or nothing |
| Exchange.ServerConnection.StreamEvents | enclave/main.py:244-281 | queue and streamer under a schedule write exactly the frames of the written events |
| Exchange.ServerConnection.Respond | enclave/vsock/server.py:85-115 | step events, then the reply |
| Exchange.ServerConnection.HandleConnection | enclave/vsock/server.py:58-122 | the loop sends exactly the frames of the requests it reads, with timeouts, closing, malformed input and shutdown |
| Exchange.ResponseShape | enclave/main.py:244-331 | all frames of a request carry its id; step events come first, the reply last |
| Exchange.ServeIsResponses | enclave/vsock/server.py:68-115 | in step with its requests, the server sends the responses of exactly these |
| Exchange.RequestsAreAnsweredInOrder | enclave/vsock/server.py:68-115 | each request gets exactly one reply, in order and under its id |
| Client.VsockClient.Send | enclave/vsock/client.py:49-92 | sends the identified request and returns the first frame that is no step event |
| Client.IdentifiedKeeps | enclave/vsock/client.py:70-72 | the request sent keeps type, payload and its own id, and gets the fresh id only without one |
| Client.StreamYieldsAll | enclave/vsock/client.py:94-129 | streaming yields every frame and ends by itself exactly for task_result, task_error and error replies |
| Client.StreamEndsItself | enclave/vsock/client.py:110-129 | the stream of a request ends by itself exactly if the request was a task or was answered by an error |
| Client.SendReturnsOwnReply | enclave/vsock/client.py:76-92 | end to end, under chunking both ways and any schedule, the client gets the reply to its own request |
| SharedQueue.QueuesAreOwnExactly | enclave/agent/controller.py:301-309 | all queues hold exactly the events of their own tasks exactly if no task starts between the start and the last event of another |
| SharedQueue.EmissionArrives | enclave/agent/controller.py:306-309 | an event goes to the current queue and to no other, behind what is there |
| SharedQueue.SequentialTasks | enclave/main.py:244-281 | tasks that run one after the other get their own events |
| SharedQueue.OverlappingTasks | enclave/main.py:245-246 | with two tasks at once an event reaches the wrong connection |
| EventStreams.StreamYieldsTrace | enclave/main.py:244-281 | end to end: if no task starts between the start and the last event of another, `send_stream` yields a prefix of the trace of its task, whole and in order, and then the reply; the trace follows the grammar; all of it is yielded if the streamer had emptied the queue |
| EventStreams.StreamYieldsWholeTrace | enclave/main.py:244-281 | if also the events fit and the streamer runs once more for each event waiting, `send_stream` yields the whole trace, event by event, and then the reply |
| Matching.CountIsExactly | enclave/tools/edit_file.py:82 | the greedy count equals the number of occurrences in every text exactly if the string has no border |
| Matching.CountOne | enclave/tools/edit_file.py:82-106 | at a count of one, every match starts within the first one |
| Matching.CountZero | enclave/tools/edit_file.py:84-93 | the count is zero exactly if nothing matches |
| Matching.CountIsLargest | enclave/tools/edit_file.py:82 | the greedy count is the largest number of matches that do not overlap |
| Editing.EditFile | enclave/tools/edit_file.py:64-141 | result and new file content of one edit: unchanged by every refusal before the write, arbitrary after a failed write |
| Editing.MultiEdit | enclave/tools/multi_edit_tool.py:79-160 | the edit loop computes the sequential edits; the file is not written unless all are accepted, and a failed write may leave anything |
| Editing.RefusalKeepsFile | enclave/tools/multi_edit_tool.py:95-148 | every refusal for the sake of an edit or a failed read leaves the file; a file that is missing, is a directory or cannot be decoded is refused as such and nothing else is; writing fails only after all edits were accepted |
| Editing.EditSucceedsExactly | enclave/tools/edit_file.py:64-141 | an edit of a file succeeds exactly if the file can be read and written and the string matches with all its matches overlapping; the file then holds the text with the first match replaced |
| Editing.AcceptedExactly | enclave/tools/edit_file.py:82-106 | whatever it puts in, an edit is accepted exactly if its string matches and no two matches are clear of each other, without a border exactly if it occurs once; the result has the first match replaced |
| Editing.RefusedExactly | enclave/tools/edit_file.py:84-104 | it is refused as no match exactly if nothing matches, and as ambiguous with the number n exactly if n >= 2 is the largest number of matches that do not overlap |
| Editing.ListIsRefusedAt | enclave/tools/multi_edit_tool.py:98-127 | a list is refused exactly for the first of its edits that is, on the text that the edits before it leave and under its number |
| Editing.AcceptedEdit | enclave/tools/edit_file.py:82-106 | an accepted edit replaces the first match; overlooked matches overlap it; none exist if the string has no border |
| Editing.PromiseIsKeptExactly | enclave/tools/edit_file.py:23-25 | acceptance means exactly one location, on all texts, exactly for strings without a border |
| Editing.EmptyOldString | enclave/tools/edit_file.py:82-106 | the empty string is accepted only in an empty file; elsewhere it is ambiguous, with one more match than there are characters |
| Editing.UndoEdit | enclave/tools/edit_file.py:82-106 | the swapped edit, when accepted, restores the text exactly if moving the old string past the first d characters of the new one changes nothing, d being how much too early the new string is found; d is zero for a new string without a border |
| Editing.EditsCommute | enclave/tools/multi_edit_tool.py:98-127 | two borderless edits at disjoint places give the same text in either order |
| Editing.CommutesExactly | enclave/tools/multi_edit_tool.py:98-127 | a string commutes with every borderless one at a disjoint place, in every text that accepts both orders, exactly if it has no border |
| Editing.ApplyAllConcat | enclave/tools/multi_edit_tool.py:98-127 | a concatenated list is one list applied after the other |
| Editing.ListIsOneByOne | enclave/tools/multi_edit_tool.py:98-127 | a list is accepted exactly if every single edit call is, with the same text |
| Editing.SwapInList | enclave/tools/multi_edit_tool.py:98-127 | commuting neighbours may be swapped anywhere in a list |
| Ledger.RunAgrees | enclave/main.py:240-288 | after every interleaving of handler statements each task row says who asked for what, how far its handler is and the total of its result, and the log holds what the handler has recorded |
| Ledger.FinishedTasksBalance | enclave/memory/state_db.py:113-198 | a finished task's logged costs add up to its stored total |
| Ledger.JoinByTask | enclave/memory/state_db.py:241-253 | the sum over the join may be taken task by task |
| Ledger.RunRowsAgree | enclave/memory/state_db.py:153-198 | after every interleaving of the single insertions, the step rows of each task are the steps its handler has inserted and its cost rows the prices of those it has priced, in order |
| Ledger.StepRowKeeps | enclave/memory/state_db.py:161-187 | the step can be read back from its row, whatever is stored as NULL |
| Ledger.FinishedTasksAreRecorded | enclave/memory/state_db.py:153-198 | after every interleaving the step rows of a finished task read back as its steps, each once and in order, and its own cost rows price them one by one |
| Ledger.PricesMayCross | enclave/memory/state_db.py:161-198 | across tasks the two logs need not go row by row together: two handlers whose insertions interleave leave no price at the place of its step |
| Ledger.UserTotalsBalance | enclave/memory/state_db.py:241-253 | after every interleaving the joined total of a user is what the handlers of the tasks have recorded so far |
| Ledger.FinishedTotalsBalance | enclave/memory/state_db.py:241-253 | with all handlers finished it is the sum of the stored totals of the user |
| TaskHandler.TaskStateDB.CreateTask | enclave/memory/state_db.py:113-122 | inserts a row, or changes nothing if the id is taken |
| TaskHandler.TaskStateDB.CompleteTask | enclave/memory/state_db.py:124-151 | updates exactly the rows with the id |
| TaskHandler.TaskStateDB.RecordStep | enclave/memory/state_db.py:153-198 | appends the step row and its cost row |
| TaskHandler.TaskStateDB.GetTaskCost | enclave/memory/state_db.py:230-239 | sums the task's cost rows |
| TaskHandler.TaskStateDB.GetUserTotalCost | enclave/memory/state_db.py:241-253 | sums over the join of cost rows and the user's tasks |
| TaskHandler.HandleTaskRequest | enclave/main.py:218-288 | refuses without touching the tables, or runs the task and records its total and every step once |
| TaskHandler.HandlerIsInterleaving | enclave/main.py:240-288 | the handler's statements in sequence are one interleaving and leave it finished |
| VectorStore.SimpleVectorStore.Store | enclave/tools/memory_tool.py:49-66 | appends and evicts |
| VectorStore.SimpleVectorStore.Search | enclave/tools/memory_tool.py:68-89 | the scoring loop, sort and cut compute the search result |
| VectorStore.Jaccard | enclave/tools/memory_tool.py:80-85 | the score times the number of words in the union is the number in the intersection; between 0 and 1, and positive exactly with a word in common |
| VectorStore.ContentsAreNewest | enclave/tools/memory_tool.py:49-66 | with positive capacity the store holds exactly the newest entries ever stored |
| VectorStore.CapacityExactly | enclave/tools/memory_tool.py:74-76 | it does so for all entries exactly if the capacity is positive |
| VectorStore.SortMeets | enclave/tools/memory_tool.py:88 | the ranking is a descending permutation that keeps the order of ties |
| VectorStore.SearchReturnsBest | enclave/tools/memory_tool.py:68-89 | the n best matching entries are returned, for negative n all but the worst; nothing left out scores higher |
| VectorStore.RecentsAreNewest | enclave/tools/memory_tool.py:91-93 | position i holds the i-th newest entry; for n >= 0 these are the n newest entries exactly if n is positive or nothing is stored; all entries for n = 0, all but the oldest for negative n |
| MemoryManager.SealedVerifies | enclave/memory/manager.py:71-86 | a stored entry's sealed copy opens under its collection's key to its content |
| MemoryManager.SealedKeeps | enclave/memory/manager.py:76-87 | a stored entry has the id, content and metadata of the caller, save for two names of the manager |
| MemoryManager.TamperingShows | enclave/memory/manager.py:137-159 | an entry whose content was changed still opens to the content stored, so it agrees with its own exactly if nothing changed |
| MemoryManager.MemoryManager.Store | enclave/memory/manager.py:55-97 | extends the history of one collection by a sealed entry and no other |
| MemoryManager.MemoryManager.Search | enclave/memory/manager.py:99-126 | ranks what its own collection's history left; every entry found verifies |
| MemoryManager.MemoryManager.GetStore | enclave/memory/manager.py:49-53 | creates a collection's own store on first use |
| GrepSearch.SearchFile | enclave/tools/grep_search.py:177-200 | the first fifty matching lines of a file |
| GrepSearch.SearchTree | enclave/tools/grep_search.py:127-175 | the lines reported are exactly the first fifty of all matches over the unskipped files in walk order; no file is searched once fifty are found |
| GrepSearch.Search | enclave/tools/grep_search.py:109-173 | a missing path is refused, a path to a file searches just that file whatever its suffix and name, and a directory is walked; the report is the first fifty matches of these files |
| GrepSearch.FileMatchesTell | enclave/tools/grep_search.py:177-200 | one match for each line that the pattern hits, in order, with the path, the number that reads as that of the line, and its text without white space at the end, of which 500 characters are shown |
| GrepSearch.ReportIsBeginning | enclave/tools/grep_search.py:167-173 | the report is a beginning of all matches: all of them, or fifty |
| GrepSearch.WalkOrder | enclave/tools/grep_search.py:136-150 | files of a directory come before those below it, and subdirectories one after the other |
| GrepSearch.VisitsReachable | enclave/tools/grep_search.py:136-150 | the walk visits exactly the files it can get to without entering a skipped directory |
| GrepSearch.CappedThoughComplete | enclave/tools/grep_search.py:167-173 | the report is complete exactly up to fifty matches, while fifty already count as capped |
| KeyRing.KeyRing.Next | proxy/main.go:74-83 | hands out the keys in rotation, or the empty string without keys |
| KeyRing.RotationIsFair | proxy/main.go:74-83 | after n calls on k keys a position has been handed out n/k times, plus one if it lies before the next position |
| KeyRing.UsesDifferByOne | proxy/main.go:74-83 | the uses of two positions differ by at most one |
| Sealing.PcrMaterial | enclave/crypto/sealing.py:50-53 | the loop concatenates the values in index order |
| Sealing.MaterialHolds | enclave/crypto/sealing.py:50-53 | each value stands behind those with smaller indices |
| Sealing.MaterialIsInjective | enclave/crypto/sealing.py:50-53 | over the same indices and lengths, equal material means equal measurements |
| Sealing.FormatsCollide | enclave/crypto/sealing.py:50-53 | across lengths or index sets material can coincide |

## Left out

- BudgetBound: budgets are whole micro-dollars; rounding of floating-point sums is not modelled, and neither is the text of guard messages.
- EventsFollowGrammar: permission_request events are not modelled; permission mode is off, and a denied or retried tool is just one more tool output.
- EditsCommute: assumes that both orders are accepted and the places are disjoint, as a caller can check; single texts may commute with bordered strings as well.
- EditFile: file paths, decoding with its newline translation, and the diff text are not modelled.
- RecordStep: tool results that are empty but no text, such as 0 or an empty list, are stored as NULL; results appear here as their text. Summaries, times and the hash columns are left out.
- RequestsAreAnsweredInOrder: assumes that replies respect the frame size limit and that the server is not shut down meanwhile; `HandleConnection` also states what is sent otherwise.
- SendReturnsOwnReply: the client's own timeouts are not in it; they end `Send` with an exception.
- SearchTree: the walk lists directory entries in sorted order; regular expressions and include globs are arbitrary predicates, and errors of the file system end the search.
- SearchReturnsBest: scores are exact quotients, not floating-point numbers, and splitting a text into lower-case words is an arbitrary function.
- MemoryManager: entry ids, time stamps and the hexadecimal form of sealed copies; sealing itself is an abstract function.
- Sealing: key derivation, encryption and the sealed files.
- The attestation receipt and the response text of a task reply: assembled from values proved about elsewhere.
- Provider network calls, retries, and the recovery and mock parsers of the provider clients: network and library behaviour.
- The terminal and HTTP user interfaces, subprocess, browser, git and file-listing tools: foreign calls; tools are arbitrary here.
- Attestation documents and their verification: foreign formats.
- Logging, latencies and generated identifiers: tool ids are assumed fresh only where a lemma says so.
