# Attention: a verified model of the kernel's cores

Attention is a headless agent kernel. This project models, in Dafny, the places where a
conversation is produced, repaired, shortened, shipped incrementally, or retried, and proves what
those places are for. `dafny verify dfyconfig.toml` checks everything.

## What is modelled

One module per component; each keeps the form of its source. Code that changes things step by step is
a method or a class whose contract equates its effect with a function of its inputs, and the lemmas
are about that function. Protocols between goroutines, streams, timers or processes are state
machines over their atomic steps, so that a run is any interleaving.

- `Messages`, `AgentMessages`: content blocks, provider messages, the transcript-level union and its
  projection to what a provider is sent.
- `Transform`, `Transcript`: rewriting a transcript for a provider (`internal/ai/transform.go`). A
  transcript is *legal* when the calls of every kept reply are answered exactly once before the next
  user or assistant message and every result answers such a call. Repair yields a legal transcript
  if and only if the input is *orderly* (no stray and no double result).
- `LoopEvents`, `LoopScript`, `AgentLoop`: the agent loop (`internal/agentloop/loop.go`) with both
  execution modes, cancellation at any check, an event sink that may fail at any event, failing
  fetches, steering and follow-ups. Providers, tools and hooks are scripts and functions; goroutines
  finish in an arbitrary order. `LoopScript` says what a script comes to, and `AgentLoop` does it.
- `Persistence`, `RecordedRun`, `SessionRecord`: what the harness records of a run, which is what the
  message_end handlers make of it, how it rebuilds the final message list, and when the stored
  transcript can be delivered again, over any succession of runs on one session.
- `CodexDelta`, `CodexCache`: the WebSocket short form (an input suffix and a previous response id)
  refines sending everything, alone and inside every interleaving of the shared connection cache
  with its busy flags and late idle timers.
- `Compaction`, `CompactedContext`, `Navigation`: cut points under a token budget, the accounts of
  every run of appends and compactions, when the rebuilt context can be delivered, the deepest common
  ancestor in the session tree, and the branch summary's budget.
- `Completions`, `Demultiplexing`, `CompletionEvents`: the accumulator of a chat-completions stream,
  against a grouping of the fragments by the key they carry, and the order of its events for a
  consumer that may stop at any of them.
- `Retry`, `OverflowRecovery`: backoff in 64-bit arithmetic, the retry loop with its counter, events
  and branch, and the one recovery from a context overflow, with the branch it leaves.
- `OAuthRefresh`: many processes refreshing one credential under the store's lock.
- `JsonStrip`, `JsonGrammar`: the stripper of comments and trailing commas, and the texts that decode
  (RFC 8259). `internal/config/config.go` and `internal/provider/parse.go` hold the same stripper, so
  one model serves both.
- `Coercion`, `ToolArguments`: schema-directed coercion of tool arguments, as a function of values and
  in place on objects and arrays that may be shared.
- `StuckDetector`: the incremental detector of repeated tool calls.

Findings, each stated by a lemma or a contract:

- Stripping twice differs from stripping once exactly when two commas stand in front of a closer
  (`,,]`); text that decoded as JSON after the first strip is never changed by the second.
- The backoff equals the saturated exponential except for a base of one nanosecond at attempt 63.
- Coercion turns null into a default exactly when a listed type has one, even where null is listed
  itself; `IdempotentExactlyWhen` names the type lists under which coercing twice differs from once,
  and `SurvivesUnionExactlyWhen` the values of a union that an earlier branch rewrites.
- The deep copy in front of the coercion fails for arguments that JSON cannot encode, and then the
  caller's own map is coerced in place.
- The comment of `observeError` says that a success resets the streak; the code starts it at one, so
  nine failures behind a success are reported as ten.
- A periodic sequence of calls is noticed within eleven calls, and ten are not always enough.
- A message_end handler may replace the content of a reply; results of calls that it drops stay in the
  session as stray results, and the repair before the next request keeps them. What a session stores
  can be delivered, for every orderly transcript, exactly when the handlers keep order
  (`RecordsStayOrderlyExactlyWhen`).
- A message that the handlers left alone is reported as another was persisted when it shares an identity
  or an address with a later one that they changed, as when call ids repeat over turns; without such a
  pair the report is what was persisted.
- A compaction may cut at a message that no provider is sent, such as a command kept from the model,
  between a call and its result; the rebuilt context then starts with a stray result.
- A stream whose provider complains in a finish reason and then gives another keeps the complaint as
  the message of a reply that is done.
- A refresh token is spent twice exactly when a refreshed credential was not persisted and the next
  refresh succeeds before anything is stored.
- Tool-call indices that share an id may end up in one block of the reply; the exact condition is in
  `AllArriveExactlyWhenClear`.
- A compaction within a turn that begins at the boundary of the one before drops the earlier summary,
  and with it all that only that summary told.
- What is kept after a compaction exceeds the budget exactly when the budget is reached behind the last
  valid cut point.
- A stored reasoning item that calls itself a call output is forgotten by the continuation, and then
  the short form is not the rest of the conversation.
- A failing notification hook reports a compaction as failed that is written already; overflow recovery
  then gives up on a branch that is cut and compacted.
- A retry that ends with an error from the session or from the continuation leaves its attempt counter
  standing and publishes no end event.

## Model

| member | source | states |
|---|---|---|
| Transform.ReplaceImagesWithPlaceholder | internal/ai/transform.go:64-91 | the copy-on-write pass returns the plain left-to-right replacement, and reports a change exactly when there was an image |
| Transform.ImagesAreReplaced | internal/ai/transform.go:64-91 | no image is left, the blocks that are neither image nor placeholder survive in order, a placeholder stands wherever images stood, and replacing again changes nothing |
| Transform.InsertedStandAlone | internal/ai/transform.go:64-91 | what was not inserted is the content without its images, in order, and no inserted placeholder directly follows a placeholder |
| Transform.NoImagesNoChange | internal/ai/transform.go:64-91 | content without images is returned as it is |
| Transform.TransformAssistantContent | internal/ai/transform.go:93-179 | the copy-on-write pass returns exactly the per-block map and records exactly the renames of changed call ids |
| Transform.ToolResultRepair.InsertSynthetic | internal/ai/transform.go:187-208 | every call still owed gets one synthetic result, in call order, and nothing stays pending |
| Transform.ToolResultRepair.Process | internal/ai/transform.go:209-231 | one message advances the repair of any continuation: output so far plus the repair of what follows is unchanged |
| Transform.InsertSyntheticToolResults | internal/ai/transform.go:181-233 | the loop with its closure computes the repair of the whole transcript |
| Transform.TransformMessages | internal/ai/transform.go:15-62 | the whole transformation is the rewrite of every message followed by the repair |
| Transcript.RepairIsLegalIffOrderly | internal/ai/transform.go:181-233 | repaired transcripts are legal if and only if no result was stray or repeated before |
| Transcript.LegalMeansAnsweredOnce | internal/ai/transform.go:181-233 | legality is: before the next turn each call of a kept reply is answered exactly once and nothing else is |
| Transcript.RepairOnlyInserts | internal/ai/transform.go:181-233 | erasing the synthetic results gives back the input without failed and aborted replies, in order |
| Transcript.RepairIsIdempotent | internal/ai/transform.go:181-233 | repairing twice, at any two times, is repairing once, for every transcript |
| Transcript.RenamesAgree | internal/ai/transform.go:19-59 | for any normaliser a result still names its call after both were renamed, when call ids are unique |
| Transcript.RenamePersists | internal/ai/transform.go:24-45 | the shared rename map keeps a call's new id until its result is met |
| Transcript.RewriteKeepsOrder | internal/ai/transform.go:15-62 | rewriting keeps transcripts orderly when the normaliser is injective on the ids of each reply |
| Transcript.TransformedIsLegal | internal/ai/transform.go:15-62 | every orderly transcript with unique call ids is legal for the provider after the whole transformation |
| AgentMessages.InjectKeepsOrder | internal/message/message.go:32-124 | steering, follow-up and custom messages never break the order of calls and results |
| AgentMessages.ReplyKeepsOrder | internal/agentloop/loop.go:463-489 | a reply followed by results for a prefix of its calls keeps the projected context orderly |
| LoopEvents.TraceCollectsEnds | internal/agentloop/loop.go:36-76 | what a run collected is the projection of its message-end events |
| LoopEvents.EveryPrefixFollowsGrammar | internal/agentloop/loop.go:36-76 | every prefix of a well-formed run follows AgentStart (TurnStart ... TurnEnd)+ AgentEnd |
| LoopEvents.AgentEndReportsAll | internal/agentloop/loop.go:36-76 | a run that ends well reports in its last event exactly the messages it ended |
| LoopScript.UncancelledBatch | internal/agentloop/loop.go:491-545 | when nobody cancels, every call of a reply is prepared on its own merits |
| LoopScript.WholeGoesThrough | internal/agentloop/loop.go:132-279 | a run fails only when a fetch, key, hook, stream or conversion of its script does |
| LoopScript.WholeIsDeliverable | internal/agentloop/loop.go:132-279 | every request of a run, the context it leaves, and the context it began with followed by the messages it ended can be delivered legally to any model, however the run ends; this is about the loop's own messages, `SessionRecord` is about what a session stores of them |
| LoopScript.CutShortIsDeliverable | internal/agentloop/loop.go:36-76 | so can what a run that its sink stopped has sent, and the context it began with followed by the messages it had ended |
| LoopScript.WholeKeepsContext | internal/agentloop/loop.go:132-279 | unless a hook swaps it, the context left is the old one, the prompts and the new messages |
| AgentLoop.AgentRun.PrepareToolCall | internal/agentloop/loop.go:723-815 | lookup, validation, the before-hook and every check for cancellation decide between an immediate outcome and a prepared call |
| AgentLoop.AgentRun.ExecuteToolCallsSequential | internal/agentloop/loop.go:491-545 | the result messages of the batch in call order and their terminate flag, up to the call where a cancellation is seen; each call of the batch was started and has ended once, with its own outcome and before the next; only the sink stops it earlier, and then the results so far are a prefix of these |
| AgentLoop.AgentRun.CompleteAll | internal/agentloop/loop.go:600-650 | whatever the completion order, every slot of the results holds the outcome of its own call and, unless the sink refuses an event, every call of the batch has reported its outcome once and no tool execution stays open |
| AgentLoop.AgentRun.ExecuteToolCallsParallel | internal/agentloop/loop.go:547-682 | the same messages and flag as the sequential mode, for every completion order; the calls of the batch start in call order and each ends once with its own outcome |
| AgentLoop.AgentRun.ExecuteToolCalls | internal/agentloop/loop.go:463-489 | so the mode never shows in the messages, in the terminate flag, in the starts or, but for their order, in the ends |
| AgentLoop.AgentRun.StreamAssistantResponse | internal/agentloop/loop.go:281-446 | one request with the projected context; the reply of the script ends as one message with one start, updates between, one end, and grows the context by itself; there is none only when a message has no provider form, the key or the stream fails, or the sink refuses |
| AgentLoop.AgentRun.RunTurn | internal/agentloop/loop.go:160-262 | a turn does exactly what its script comes to, in context, new messages, requests, checks, steering and outcome, and fails only when the script does or the sink refuses |
| AgentLoop.AgentRun.RunTurns | internal/agentloop/loop.go:160-262 | the inner loop ends a run or stands where the follow-ups are fetched, as the script says |
| AgentLoop.AgentRun.RunLoop | internal/agentloop/loop.go:132-279 | the nested loops come to what the script comes to |
| AgentLoop.AgentRun.Run | internal/agentloop/loop.go:36-76 | a run does what its script comes to and fails only when the script does or the sink refuses an event; a completed one follows the event grammar to its end with the ended messages as its result; and its requests, its context, and the messages it ended behind the context it began with can be delivered legally to any model |
| AgentLoop.AgentRun.Continue | internal/agentloop/loop.go:92-130 | refused exactly on an empty context or behind an assistant message, else the same promises as a run |
| LoopScript.OrderlyDelivers | internal/ai/transform.go:15-62 | an orderly request is legal after transformation for every model and every normaliser injective on its ids |
| Persistence.EmitMessageEndChain | internal/harness/prompt.go:382-427 | handlers change a message only within its role, each failing or refused one is noted on a provider message by position, and without either nothing changes |
| Persistence.EventSinkState.RecordMessageEnd | internal/harness/prompt.go:300-322 | the record of replacements stays the changed decisions of the log, by position |
| Persistence.EventSinkState.MapAgentEndMessages | internal/harness/prompt.go:324-338 | the final list is exactly the messages that were persisted, unless a message that the handlers left alone shares an identity or an address with a later one that they changed; then one such message is reported as the other was persisted |
| Persistence.TheRightReplacement | internal/harness/prompt.go:340-380 | the ranked search finds the replacement recorded for this message and no other, and finds one exactly when the message was changed; for a message that can be mistaken it finds the replacement of a later one |
| Persistence.DistinctIsUnmistaken | internal/harness/prompt.go:340-380 | identities and addresses of their own leave nothing to mistake |
| Persistence.RecordedMatchesLog | internal/harness/prompt.go:300-322 | each replacement belongs to one changed message, in order |
| Persistence.EventSinkState.ConsumeRun | internal/harness/prompt.go:176-222 | over the events of a run the session gets what the handlers make of every ended message, and the final event of a run that ends well reports exactly that unless a message is mistaken for another |
| RecordedRun.PromptAndRecord | internal/harness/prompt.go:176-222 | a run and its sink together: the session gets what the handlers made of each message the run ended, in order, however it ends, and a completed run reports it unless a message is mistaken for another; when the handlers keep order, a session that could be delivered legally still can, and so could every request |
| RecordedRun.RunHarness | internal/harness/prompt.go:959-1005 | a failed run is reported by a failed reply through a sink of its own; what the session then holds is one step of a succession of runs |
| SessionRecord.RecordsStayOrderlyExactlyWhen | internal/harness/prompt.go:187-193 | what a session stores of every orderly transcript is orderly if and only if the handlers keep order: acceptable replies stay acceptable, and results of a reply's calls stay results of calls of what it became, different ones of different calls |
| SessionRecord.GentleHandlersKeepOrder | internal/harness/prompt.go:382-427 | any chain of handlers keeps order when each of them leaves call ids, a reply's calls and its failure alone |
| SessionRecord.ReplacedReplyStraysResult | internal/harness/prompt.go:382-427 | a handler that replaces a reply by plain text is within its role and draws no diagnostic, but leaves a stray result in the session, and the repair of what is stored is no legal transcript |
| SessionRecord.RecordIsDeliverable | internal/harness/prompt.go:675-694 | with handlers that keep order and contexts rebuilt from the session between turns, whatever part of its script a run has gone through, its requests and the session with what the handlers made of its messages can be delivered legally to any model |
| SessionRecord.SuccessiveRunsDeliver | internal/harness/prompt.go:42-97 | over any succession of runs on one session, failed and stopped ones included, every request and the session itself can be delivered legally |
| CodexDelta.ConvertCodexMessages | internal/ai/codex.go:469-528 | the nested loops concatenate the items of each message |
| CodexDelta.ConvertReply | internal/ai/codex.go:481-512 | the inner loop concatenates the items of a reply's blocks |
| CodexDelta.CachedRequestRefinesFull | internal/ai/codex_ws.go:456-480 | with a continuation the server can back, stored conversation plus sent input is the full input |
| CodexDelta.RepairBeforeReply | internal/ai/transform.go:181-233 | repairing a transcript that goes on with a reply is repairing it up to the reply: later messages never reach back over it |
| CodexDelta.RepairIgnoresClock | internal/ai/transform.go:187-208 | repaired at two times, a transcript differs in timestamps only |
| CodexDelta.ItemsIgnoreClocks | internal/ai/codex.go:469-528 | transcripts that differ in timestamps only are converted to the same items, so each synthetic result may read the clock for itself |
| CodexDelta.RequestIgnoresClock | internal/ai/codex.go:469-528 | what a request says does not depend on when it is built |
| CodexDelta.TransformedGrows | internal/ai/transform.go:15-62 | but for timestamps, the later transformation of an extended conversation starts with the earlier one of the conversation and the reply |
| CodexDelta.FilterKeepsReplyExactlyWhen | internal/ai/codex_ws.go:500-507 | filtering call outputs leaves a reply's own items alone exactly when no stored reasoning item passes for one |
| CodexDelta.ContinuationItemsAreTheReply | internal/ai/codex_ws.go:486-508 | the items remembered of a reply are the items it has in the next full input exactly when no stored reasoning item passes for a call output; otherwise they are fewer |
| CodexDelta.GrowingConversationSendsOnlyTheRest | internal/ai/codex_ws.go:456-508 | a conversation extended by its same-model reply and anything else takes the short form with exactly what follows the reply, if and only if no stored reasoning item of the reply passes for a call output; the two requests and the recording each read the clock for themselves |
| CodexCache.NextKeepsValid | internal/ai/codex_ws.go:345-421 | every critical section and every late timer keeps the cache, the holders, the timers and the continuations consistent |
| CodexCache.EveryRunIsSafe | internal/ai/codex_ws.go:345-421 | in every reachable state a cached connection is open, none is held twice, every open one is held or has a timer to come, and every request under way means its full payload |
| CodexCache.ExpireSparesTheHeld | internal/ai/codex_ws.go:391-421 | an idle timer, however late, leaves a held connection as it is |
| CodexCache.ShortFormRefinesFull | internal/ai/codex_ws.go:62-131 | any run with short requests reaches the state of the run that sends every payload in full |
| CodexCache.ServerCannotTell | internal/ai/codex_ws.go:62-131 | on every connection the server stores the same conversations in both runs |
| CodexCache.WebSocketCache.AcquireCodexWebSocket | internal/ai/codex_ws.go:345-389 | the critical section makes the acquire step of the protocol |
| CodexCache.WebSocketCache.DialDone | internal/ai/codex_ws.go:362-389 | a finished dial makes the dial step: the entry of a late first dial replaces the one cached meanwhile |
| CodexCache.WebSocketCache.BuildCachedCodexWSRequest | internal/ai/codex_ws.go:456-480 | builds the short request or drops the continuation it cannot use, and touches nothing else |
| CodexCache.WebSocketCache.SendRequest | internal/ai/codex_ws.go:62-84 | the holder's write makes the send step, in short form only in the cached transport |
| CodexCache.WebSocketCache.EndResponse | internal/ai/codex_ws.go:86-131 | the bookkeeping of a finished response makes the finish step of the protocol |
| CodexCache.WebSocketCache.ReleaseCodexWSEntry | internal/ai/codex_ws.go:391-421 | the release makes the release step of the protocol |
| CodexCache.WebSocketCache.IdleTimeout | internal/ai/codex_ws.go:405-418 | the timer's callback makes the expire step of the protocol |
| Compaction.EstimateAIMessageTokens | internal/harness/compact.go:1058-1093 | the loop counts the bytes each role's blocks weigh, rounded up to tokens |
| Compaction.FindValidCutPoints | internal/harness/compact.go:850-864 | the scan returns the cut points of the range |
| Compaction.CutPointsAreTheValidOnes | internal/harness/compact.go:850-864 | exactly the valid entries of the range, ascending, led by the first of them |
| Compaction.FindTurnStartIndex | internal/harness/compact.go:866-880 | the nearest turn start at or before an entry, if any |
| Compaction.FindBudgetCut | internal/harness/compact.go:800-823 | the walk back from the end stops at the last entry whose tail reaches the budget and takes the first valid cut point from there |
| Compaction.FindCutPoint | internal/harness/compact.go:786-848 | the three loops compute the cut of the specification |
| Compaction.CutSeparatesExactlyWhen | internal/harness/compact.go:786-848 | a cut falls between a call and its result exactly when the budget is reached between them with a valid cut point before the result |
| Compaction.CutKeepsCallWithResult | internal/harness/compact.go:786-899 | with no custom message or branch summary between them, no budget separates a call from its result |
| Compaction.KeptTailFitsBudget | internal/harness/compact.go:802-823 | what is kept behind the first kept message stays under the budget exactly when the budget is nowhere reached or a valid cut point lies at or after the entry where it is |
| Compaction.UnderBudgetKeepsAll | internal/harness/compact.go:802-823 | a branch under budget is cut at its first valid cut point, and its tail is under budget |
| Compaction.PrepareCompaction | internal/harness/compact.go:150-228 | the preparation loop computes boundary, history, turn prefix and previous summary |
| Compaction.SummarisesUpToFirstKept | internal/harness/compact.go:190-220 | one compaction summarises exactly what lies between the old boundary and the first kept entry |
| Compaction.ContextMessages | internal/harness/compact.go:922-967 | the rebuild loop computes the rebuilt context |
| Compaction.ContextIsSummaryThenTail | internal/harness/compact.go:922-967 | the rebuilt context is the latest summary followed by the messages from the first kept entry on |
| Compaction.NothingLostNothingTwice | internal/harness/compact.go:150-228 | what was summarised followed by what is still shown is the whole conversation, in order |
| Compaction.CompactKeepsConsistent | internal/harness/compact.go:150-228 | a compaction keeps the accounts and never moves the first kept entry backwards |
| Compaction.RunsKeepAccounts | internal/harness/compact.go:150-228 | so does every interleaving of appends and compactions |
| Compaction.EveryRunConserves | internal/harness/compact.go:922-967 | from an empty branch, every run has each message summarised once or shown, never both |
| Compaction.SummaryCoversAllExactlyWhen | internal/harness/compact.go:348-387 | over every run the latest summary covers the last of what was summarised, and all of it exactly when no compaction left an earlier summary out: an empty one, or any when a turn is split that begins at the boundary |
| Compaction.SplitTurnForgets | internal/harness/compact.go:348-350 | two compactions, the second within the turn that the first one kept, lose what the first had summarised |
| CompactedContext.RebuiltOrderlyExactlyWhen | internal/harness/compact.go:922-967 | the context rebuilt from a branch whose conversation is orderly is orderly if and only if the first message it sends from the first kept entry on is no tool result |
| CompactedContext.RunRebuildsOrderlyExactlyWhen | internal/harness/compact.go:922-967 | so it is after every run of appends and compactions |
| CompactedContext.StartsAsFirstShown | internal/harness/compact.go:922-967 | and that message is the one of the first entry from there on that has anything to send |
| CompactedContext.ShownCutsKeepOrder | internal/harness/compact.go:786-848 | over every run, with any budgets, the context stays orderly when each compaction cuts at a message that providers are sent |
| CompactedContext.HiddenCutStraysResult | internal/harness/compact.go:886-899 | a command kept from the model that stands between two results of one reply is a valid cut point, and a budget that cuts there leaves a stray result in the rebuilt context |
| Navigation.GetBranch | internal/session/memory.go:139-164 | the walk up and the reversal give the root-first path, or nothing when an entry is missing |
| Navigation.CollectEntriesForBranchSummary | internal/harness/navigate.go:199-242 | nothing without an old leaf, an error exactly when a branch is broken, else the old branch is the shared root path followed by the collected entries |
| Navigation.DeepestCommonAncestor | internal/harness/navigate.go:199-242 | the ancestor returned lies above both leaves and below every other entry that does, and an entry is collected exactly when it is above the old leaf but not above the target |
| Navigation.NothingForgotten | internal/harness/navigate.go:116-160 | after the move each entry of the old branch is on the new branch, collected, or the target sent to the editor, and only one of these |
| Navigation.PrepareBranchEntries | internal/harness/navigate.go:348-379 | the kept messages are the longest tail that fits the budget, but for one summary admitted while a tenth of it is free |
| Completions.StreamState.ApplyCallDelta | internal/ai/openai_completions.go:1227-1249 | routes a tool-call delta by index, then by id, else to a new block; a consumer that stops has seen a prefix of the step's events |
| Completions.StreamState.FinalizeToolCalls | internal/ai/openai_completions.go:1397-1404 | the last decoding changes nothing, in whatever order the maps are walked |
| Completions.StreamState.Finish | internal/ai/openai_completions.go:1367-1395 | one end per block, then the closing events |
| Completions.StreamState.Run | internal/ai/openai_completions.go:1067-1091 | the stream loop leaves the state of the step functions, or the first events of it when the consumer stops |
| Completions.StepAllKeepsDecoded | internal/ai/openai_completions.go:1227-1249 | at any moment a call's arguments are what all its fragments so far decode to |
| Completions.StreamState.ApplyTextDelta | internal/ai/openai_completions.go:1191-1207 | text goes to the one text block, started when there is none |
| Completions.StreamState.ApplyReasoningDelta | internal/ai/openai_completions.go:1209-1225 | reasoning goes to the one thinking block, signed by the field it first came in |
| Completions.StreamState.ApplyDetail | internal/ai/openai_completions.go:1266-1275 | an encrypted detail signs exactly the calls with its id |
| Completions.StreamState.Apply | internal/ai/openai_completions.go:1130-1164 | a chunk is its metadata and its fragments in order: text, reasoning, calls, details |
| Demultiplexing.LookupFindsKeyExactlyWhen | internal/ai/openai_completions.go:1312-1341 | index and id lead to the block of the delta's key, or to none if there is none, exactly when the delta is clear: its index is known, or it has no id, or no block bears its id, or, for a delta without index, its id was last given to the block of the index or id that introduced it |
| Demultiplexing.HolderMeans | internal/ai/openai_completions.go:1343-1350 | an id has a holder exactly when some call block bears it |
| Demultiplexing.AllArriveExactlyWhenClear | internal/ai/openai_completions.go:1227-1341 | every tool-call delta of a stream goes to the block of its key if and only if every delta is clear |
| Demultiplexing.DistinctIDsAreClear | internal/ai/openai_completions.go:1312-1341 | where every id belongs to one key every delta is clear |
| Demultiplexing.IDAloneContinues | internal/ai/openai_completions.go:1322-1326 | a call that an index and an id begin may go on by the id alone: such deltas belong to the index and are clear |
| Demultiplexing.Demultiplexes | internal/ai/openai_completions.go:1130-1275 | then, for any interleaving, the blocks are the fragments grouped by key, in order of first appearance, each the concatenation of its own, with at most one text and one thinking block |
| Demultiplexing.StreamDemultiplexes | internal/ai/openai_completions.go:1067-1404 | the same for the reply of a whole stream |
| Demultiplexing.TableIsGrouping | internal/ai/openai_completions.go:1312-1350 | the incremental table of keys is the declarative grouping |
| Demultiplexing.SharedIDMerges | internal/ai/openai_completions.go:1322-1326 | two new indices with one id share a block, and the grouping is missed |
| Demultiplexing.AstrayUnseen | internal/ai/openai_completions.go:1312-1350 | a delta that goes astray need not show: one without arguments and a later id for its own block leave the grouping as it should be |
| CompletionEvents.StreamFollows | internal/ai/openai_completions.go:1067-1404 | starts carry 0, 1, 2, ..., texts go to started blocks of their kind, each block ends once in order, one Done or Errored and then Complete close; and the texts put together are the final reply's |
| CompletionEvents.PrefixFollows | internal/ai/openai_completions.go:1352-1365 | a consumer that stops early has seen nothing out of order |
| CompletionEvents.FinalReasonIs | internal/ai/openai_completions.go:1378-1394 | for every stream: unless something stops it, the reply ends for its last finish reason, but for its tools when that is a plain stop and a chunk called one, and with an error when no reason came; it is done unless that reason is an error, and its message is the last complaint, even one that a later reason superseded; a cancelled or failing stream ends as aborted or failed, a broken one without closing |
| Retry.BackoffIsSaturatedExponential | internal/orchestrator/retry.go:317-329 | in range for every attempt, and equal to the saturated exponential except for one nanosecond at attempt 63 |
| Retry.BackoffIsMonotone | internal/orchestrator/retry.go:317-329 | a later attempt never waits less |
| Retry.AssistantEntryForMessage | internal/orchestrator/overflow.go:165-195 | the last matching reply of the branch, else its last reply, else nothing |
| Retry.Retrier.PrepareRetryAssistant | internal/orchestrator/retry.go:138-154 | the failed reply and what follows it leave the active branch, unless the session cannot be read or moved |
| Retry.Retrier.TryAgain | internal/orchestrator/retry.go:63-104 | one pass: the start event, and the ending, reply and branch that the wait, the move and the continuation come to |
| Retry.Retrier.RetryTransientError | internal/orchestrator/retry.go:55-129 | the loop makes exactly the attempts of the specification, with a start event for each, one end event unless the run is cancelled or an error of the session or the continuation breaks the retry off, and the counter back at zero unless such an error does |
| Retry.RetryingGivesUpOnly | internal/orchestrator/retry.go:61-128 | never more than the allowed attempts; each retried reply is a transient error and the answer to the one before; an error is given back only when retrying is off, it is not transient or no attempt is left; and any other ending has its cause in the last attempt |
| Retry.RetriedRepliesAreGone | internal/orchestrator/retry.go:95-104 | once answered, or aborted while waiting, no reply that was retried before is on the branch |
| Retry.AttemptClears | internal/orchestrator/retry.go:95-104 | each attempt takes its failed reply off the branch, and no later append brings one back |
| OverflowRecovery.Recovery.RecoverOverflow | internal/orchestrator/overflow.go:26-49 | finds the reply the call is about on the branch, or the last one, and recovers from its overflow |
| OverflowRecovery.Recovery.RecoverContextOverflow | internal/orchestrator/overflow.go:51-108 | compacts and goes on exactly when an overflow of the current model, later than the last compaction, is due and none was tried before, refuses a second one in a row, and leaves the branch cut, compacted and continued as far as it comes |
| OverflowRecovery.IsBeforeLatestCompaction | internal/orchestrator/overflow.go:232-256 | by the clocks of the reply and of the last compaction; a time that cannot be read counts as later |
| OverflowRecovery.OverflowLeavesBranch | internal/orchestrator/overflow.go:84-98 | afterwards the overflowing reply is nowhere on the branch exactly when it stood there once and the continuation does not record it again; then it is in no rebuilt context either |
| OverflowRecovery.FlagMeans | internal/orchestrator/overflow.go:51-108 | the flag is up exactly when an attempt was made since the last reply that went through |
| OverflowRecovery.AttemptsAreSeparated | internal/orchestrator/overflow.go:51-108 | over any sequence of calls a reply goes through between two attempts, so recovery never loops |
| OAuthRefresh.NextKeepsValid | internal/auth/resolver.go:334-372 | every step of every process keeps the lock exclusive, the store at the newest credential and spent tokens outdated |
| OAuthRefresh.NoTokenSpentTwice | internal/auth/resolver.go:261-372 | over every interleaving of any number of processes, with persists that succeed, no refresh token buys two credentials |
| OAuthRefresh.NextKeepsSound | internal/auth/resolver.go:334-372 | every step, a failing persist included, keeps that the stored token was spent exactly when a renewal is under way or was lost, and spends a token twice exactly when it renews after a loss |
| OAuthRefresh.TokenSpentTwiceExactlyWhen | internal/auth/resolver.go:334-372 | over every interleaving a token is spent twice if and only if some failed persist is followed by a successful refresh with no persist or login between |
| OAuthRefresh.NextNeverStoresOlder | internal/auth/store.go:101-119 | whatever was lost before, no step puts an older credential in the place of a newer one, and a step that stores puts a newer one there |
| OAuthRefresh.RunNeverStoresOlder | internal/auth/store.go:101-119 | over every interleaving, failing persists included, the store ends at least as new as it began, and newer when anything was stored |
| OAuthRefresh.WaiterReuses | internal/auth/resolver.go:261-350 | over every run in which a process waits, others store a credential before it gets the lock, and steps of others come between any two of its own: it decides on a newer credential than was stored when it began to wait, issued since unless a renewal was then under way; while that is good it leaves with it, and nothing is spent from the lock on |
| OAuthRefresh.EveryCredentialIsPaidFor | internal/auth/resolver.go:350-358 | credentials issued are tokens spent plus logins |
| OAuthRefresh.CredentialStore.RefreshUnderLock | internal/auth/resolver.go:334-372 | the locked section makes a run of the protocol's steps and resolves to the stored or the refreshed credential, to nothing when the refresh or the persist fails |
| OAuthRefresh.LostRenewalSpendsTwice | internal/auth/store.go:101-119 | a renewal that fails to persist makes the next process spend the same token |
| JsonStrip.StripLineComments | internal/config/config.go:281-324 | the byte loop removes exactly the comment tokens |
| JsonStrip.CommaIsTrailing | internal/config/config.go:364-372 | the scan decides whether the next byte that is no white space closes an object or array |
| JsonStrip.StripTrailingCommas | internal/config/config.go:326-362 | the byte loop removes exactly the commas whose next token is a closer |
| JsonStrip.StripJSONComments | internal/config/config.go:276-279 | both passes in sequence |
| JsonStrip.StrippedMeans | internal/config/config.go:276-279 | lexing the stripped text gives the original tokens minus comments and minus commas in front of a closer |
| JsonStrip.LiteralsAndLinesKept | internal/config/config.go:276-362 | string literals are kept byte for byte and the number of lines is preserved |
| JsonStrip.StripIsIdentityExactlyWhen | internal/config/config.go:276-279 | text is left alone exactly when it has no comment and no trailing comma |
| JsonStrip.StripTwiceIsOnceExactlyWhen | internal/config/config.go:364-372 | a second strip changes nothing exactly when no two commas stand in front of a closer |
| JsonGrammar.ValueIsClean | internal/config/config.go:276-279 | in text of the grammar of RFC 8259 no value has a slash outside of strings or a comma in front of a closer |
| JsonGrammar.DecodedIsLeftAlone | internal/config/config.go:276-279 | text that decodes is never changed |
| JsonGrammar.SecondStripChangesNothing | internal/provider/parse.go:9-28 | so the parser's own strip leaves text alone that decoded after the first |
| JsonStrip.StripIsNotIdempotent | internal/config/config.go:355-371 | two commas in front of a closer need two strips |
| ToolArguments.Memory.DeepCloneValue | internal/ai/validation.go:246-258 | a value that JSON can encode is copied into objects of its own; any other is handed back itself |
| ToolArguments.Memory.CoerceWithSchema | internal/ai/validation.go:275-340 | the steps, made in place, turn the value into its coercion, write no object it does not own, and hand back the value itself when it cannot be encoded |
| ToolArguments.Memory.CoerceWithUnionSchema | internal/ai/validation.go:345-358 | each branch works on a copy: the first whose coerced value validates wins, else the value is as it was; a value that cannot be copied keeps what the branches before did to it |
| ToolArguments.Memory.ApplyObjectCoercion | internal/ai/validation.go:362-388 | each field is overwritten by its coercion under its own property schema or the additional one, in whatever order the fields are walked, and no other object changes |
| ToolArguments.Memory.ApplyArrayCoercion | internal/ai/validation.go:393-417 | each element by its own item schema, those beyond a tuple untouched |
| ToolArguments.MemberBecame | internal/ai/validation.go:362-417 | writing one coerced member back leaves what all the others say as it was |
| ToolArguments.Memory.ValidateToolArguments | internal/ai/validation.go:422-441 | the answer is the verdict on the coerced arguments; the caller's objects are not written at all when JSON can encode them, and what is accepted shares nothing with them; otherwise they are what the coercion makes of them |
| ToolArguments.CallerKeepsExactlyWhen | internal/ai/validation.go:246-258 | a corollary of `Coercion.UnchangedExactlyWhen`: under a schema without compositions the caller has what it had exactly when JSON can encode it or nothing in it needs coercing |
| ToolArguments.UnencodableIsChanged | internal/ai/validation.go:246-258 | beside a channel, a numeric string of the caller's own map becomes a number |
| Coercion.UnchangedExactlyWhen | internal/ai/validation.go:275-417 | without compositions a value is left alone exactly when no null in it sits where a listed type has a default and nothing without a declared type can be made into one |
| Coercion.ConformingIsUnchangedExactlyWhen | internal/ai/validation.go:275-417 | a value that conforms at every depth is left alone exactly when no null in it sits where a listed type has a default |
| Coercion.TwiceDiffersExactlyWhen | internal/ai/validation.go:305-316 | the exact type lists under which the empty string, zero or false becomes null and null another type's default |
| Coercion.IdempotentExactlyWhen | internal/ai/validation.go:275-417 | without compositions, coercing twice is coercing once for every value if and only if no type list that coercion can reach is one of these |
| Coercion.NullIsKeptExactlyWhen | internal/ai/validation.go:276-285 | the case of null on its own: it is kept exactly when no listed type has a default for it |
| Coercion.NullBesideDefault | internal/ai/validation.go:276-285 | an empty string becomes null and then zero under null and number; string before null is harmless |
| Coercion.SurvivesUnionExactlyWhen | internal/ai/validation.go:345-358 | a value that some branch takes as it is comes out of the union unchanged exactly when every earlier branch that takes it changed stands behind one that takes it as it is |
| Coercion.UnionMayChangeValidValue | internal/ai/validation.go:345-358 | a string branch in front of a number branch turns a number into its text |
| StuckDetector.Detector.Observe | cmd/tui/agent_loop.go:103-130 | the report on every call is what a check of the whole history says |
| StuckDetector.Detector.DetectCycle | cmd/tui/agent_loop.go:155-192 | the window ends in three equal blocks of two or three calls with differing neighbours |
| StuckDetector.WindowShowsStuck | cmd/tui/agent_loop.go:103-130 | twelve remembered calls and a counter decide the check of the whole history |
| StuckDetector.PeriodicIsNoticed | cmd/tui/agent_loop.go:103-192 | calls with a period of at most three are reported within eleven observations |
| StuckDetector.TenMayPass | cmd/tui/agent_loop.go:155-192 | ten calls of period three may pass unreported |
| StuckDetector.Detector.ObserveError | cmd/tui/agent_loop.go:136-147 | reports by the streak the code keeps |
| StuckDetector.ErrorStreakCounts | cmd/tui/agent_loop.go:136-147 | a streak is failures behind one call of the same tool that may have succeeded |
| StuckDetector.SuccessCounts | cmd/tui/agent_loop.go:132-147 | nine failures behind a success are reported |

## Left out

- HTTP, SSE and WebSocket transport, processes, files and clocks: streams are sequences of decoded events, times are parameters, and one pass over a transcript has one clock value, which `CodexDelta.ItemsIgnoreClocks` shows to be no loss for requests.
- JSON values other than in `Coercion`, `ToolArguments` and `JsonGrammar` are their serialised text; decoding is a function of the environment, and raw reasoning items are compared by structure.
- Usage, cost, response metadata, the text of message diagnostics and file operations of summaries.
- Transform.TransformMessages: content blocks are values, so sharing of unchanged content with the input is not modelled.
- AgentLoop.AgentRun.Run: termination is not claimed; a run follows a finite script of turns, so the promises are about runs that return. The context-transform hook is left out, and tools and hooks are stateless functions.
- Persistence.EventSinkState.MapAgentEndMessages: pointer identity of messages is a tag, since Dafny values have none.
- RecordedRun.PromptAndRecord: the sink takes the events after the run, which sees of it only where it refuses one; what it took was appended to the session. Handlers are stateless functions.
- SessionRecord.SuccessiveRunsDeliver: the session is its list of messages; a compaction between runs is the subject of `CompactedContext`, and runs that a compaction interrupts are left out.
- CodexCache.EveryRunIsSafe: a cache entry and the connection dialled for it are one record; payloads name no previous response of their own; the server stores exactly the remembered items and gives fresh response ids on a connection.
- Compaction.EveryRunConserves: compactions that a hook supplies are left out, and a summary is its text and what it was made from.
- Compaction.KeptTailFitsBudget: a range without a valid cut point is kept whole, and nothing is claimed of its size.
- Navigation.PrepareBranchEntries: nine tenths of the budget is a real number here and a float in the code; how messages are measured is a parameter.
- Navigation.GetBranch: entries carry a rank that shows the parent links acyclic; the code would loop on a cycle.
- Completions.StreamState.Run: events do not carry the shared pointer to the growing message, and response ids and usage are left out.
- Demultiplexing.Demultiplexes: one direction, since a delta that goes astray need not show in the blocks (`Demultiplexing.AstrayUnseen`); where the deltas go is characterised exactly.
- Retry.RetriedRepliesAreGone: the session is its active branch; assumes that runs record the replies they return and that recorded replies do not match each other.
- OverflowRecovery.OverflowLeavesBranch: an overflow that is not due, or a session that cannot be moved, leaves the branch alone and is not part of the statement.
- OverflowRecovery.Recovery.RecoverContextOverflow: how overflows and entry timestamps are read is given, and what the continuation records is a parameter.
- OAuthRefresh.NoTokenSpentTwice: no deletes, and no lock is stolen from a process that still runs; the per-process mutex is subsumed by the file lock.
- Coercion.IdempotentExactlyWhen: `allOf` and unions are left out, since a later part may undo what an earlier one did; numbers are finite reals.
- Coercion.SurvivesUnionExactlyWhen: for values that JSON can encode; others are handed from branch to branch.
- ToolArguments.Memory.ValidateToolArguments: arguments that JSON cannot encode are taken to share no part with each other and to have no cycle; encoding and decoding keep strings and numbers as they are.
- StuckDetector.Detector.Observe: a call is its fingerprint, and distinct calls are taken to have distinct ones.
- The other stream accumulators and the rest of the user interface, provider tables, hooks and session storage.
