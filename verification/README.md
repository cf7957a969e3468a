# Verified model of the agent turn pipeline

This project models, in Dafny 4.11, how LHA turns a chat provider's stream into an agent turn, a
growing transcript and the next chat request, and proves what each stage promises and what the
stages promise together.

* **Plan text** (`PlanText`, `PlanParser`, `ProposedPlanText`): the character-driven parser for
  `<proposed_plan>` blocks, against a line-by-line meaning of a text.
* **Chat streams** (`ToolCallTable`, `ChatWire`, `ChatAssembler`, `ChatProtocol`, `CompletedChat`,
  `ChatAgreement`): the stream processor that rebuilds tool calls, messages and reasoning from
  deltas, a monitor for what its receiver sees, and the reading of a whole response it agrees with.
  What a stream says and how it ends is also read directly off its polls (`ChatFailures`,
  `ChatEnding`, `ChatContent`, `ChatCalls`), and a whole response off its fields (`WholeReading`).
* **Aggregation and adaptation** (`Aggregator`, `SemanticEvents`, `ItemHandles`,
  `AggregatedHandles`): the polled stream that merges text deltas, and the adapter that gives items
  handles.
* **Turns** (`TurnKernel`, `TurnOutcomes`, `ToolScheduling`, `Retry`, `RetryRules`): the kernel's
  event and result loops and what a turn reports, tool futures under a shared/exclusive lock with
  cancellation, and the retry loop with its one-shot transport fallback.
* **Sessions** (`SessionState`, `Session`, `SessionLog`): API callers and turn drivers interleaved
  at lock and await points, the event grammar of a submission, and the loop that collects its text.
  Over all runs of a session (`SessionRuns`): what ends a submission (`SessionEndings`), what the
  calls bring about (`SessionCalls`), which turn's text is collected (`CollectedText`), which inputs
  are left queued (`SessionQueues`), when an Idle event is stale (`SessionStatus`).
* **Requests** (`ChatRequest`, `RequestMeaning`, `RequestReading`, `RequestReasoning`,
  `ToolAdjacency`): from a transcript to chat messages, and what those messages still say.
* **Everything together** (`OneChoice`, `EndToEnd`, `ChatRetries`, `SessionTurns`): provider chunks
  in, retries, tool runs, a session's transcript, next request out.
* **MCP** (`Mcp`, `McpSchema`): qualified tool names and schema normalisation.

Code that changes state is written as classes and methods over the fields the source updates; each
method's contract equates the new state with a function of the old one, and the theorems are about
those functions. `Basics` and `Transcript` hold shared datatypes. `dafny verify dfyconfig.toml`
checks the whole project.

## Facts worth knowing

Some stronger claims one might expect are false of the code; the model keeps the code's behaviour.

* A retryable error in the middle of a stream is charged to the retry budget twice, once as an
  error and once as a missing completion. `Retry.BrokenEveryTime` gives the exact number of
  attempts when every stream breaks, `Retry.RefusedEveryTime` when every request is refused.
* The adapter has a single active handle, so a response that thinks before it speaks completes its
  items under wrong handles. With raw delivery (`show_raw_agent_reasoning`) handles match exactly
  when a reasoning item and a message are never open together
  (`ItemHandles.HandlesMatchIffNeverBothOpen`). With the default, aggregated delivery that is not
  enough: the joined reasoning, which was never started, takes the handle of a message begun before
  it, so a response with text of both kinds never matches. `AggregatedHandles` has the exact
  condition; the own handle of an item that was never started is the one it suggests itself, and
  the joined message counts as the message begun last, whichever message its text came in. Where
  several messages begin, all but one are never completed (`AggregatedHandles.AllCompletedIff`).
* Aggregation reports reasoning twice: the finished item is passed on, and the joined text follows
  (`Aggregator.AggregatesAssembledStream`).
* An assistant text equal to the one before it is left out of a request, and the reasoning anchored
  to it with it (`RequestReasoning.AnchoredReasoningIsCarried`).
* A turn with an assistant text between two of its calls is not adjacent: the second call begins a
  new message before the first is answered (`ToolAdjacency.TextBetweenCallsBreaks`). A text before
  all calls or behind them does no harm. Several choices in one response can produce that order;
  aggregated streams and responses of one choice cannot (`EndToEnd.TurnNeverSplits`).
* A turn that fails or is aborted behind one of its calls leaves that call without a result, and the
  request of the next submission is not adjacent then (`EndToEnd.NextRequestIsAdjacentIff`).
* A continuation is accepted when an input is queued, even if it holds no items; with an empty
  conversation the turn then fails (`Session.AcceptedContinueFeeds`).
* An input steered behind the last drain stays queued while the session goes idle; a queue holds
  exactly the inputs pushed to it since then (`SessionQueues.LeftQueuedIff`). For a submission that
  ends by itself these are the drains behind its last turn (`SessionQueues.EndedSubmissionLeaves`).
* The Idle status is written before the Idle event is sent, so status events of two submissions can
  overlap (`SessionStatus.StatusesOverlap`): an Idle event is stale exactly if a call that began
  since the release is active (`SessionStatus.StaleIdleIff`). The event grammar holds per submission.
* The collecting loop returns the outcome of the first turn that needs no follow-up. `ask_once`
  promises that of the last turn (docs/sdk-building-agents.md:83-84), and keeps the promise: nobody
  else holds its session (`CollectedText.AskOnceReturnsLastTurn`). In a session that is steered or
  cancelled the two are the same exactly if no input is drained and no cancellation seen behind a
  turn that needs no follow-up (`CollectedText.CollectsLastTurnIff`); `CollectedText.SteeredTextDiffers`
  is a run in which the texts differ.
* The documentation says that a call to an unknown tool is recorded with `success: false`
  (docs/sdk-building-agents.md:338-341). It is if and only if the call has JSON arguments; a call with
  text input gets a plain text result without that flag (`ToolScheduling.UnknownToolIsFlaggedIff`).
* A qualified MCP tool name gives back its server only if the server name has no `__` and does not
  end in `_` (`Mcp.SplittingRestores`).

## Model

| member | source | states |
|---|---|---|
| PlanText.ChunkingIsIrrelevant | src/llm/src/api/proposed_plan_parser.rs:28-121 | for every chunking, the reports of all chunks and of finishing are the line-by-line meaning of the whole text |
| PlanText.NoTagAfterMismatch | src/llm/src/api/proposed_plan_parser.rs:48-60 | early flushing is safe: no continuation of a flushed line is a tag line |
| PlanText.StepRemaining | src/llm/src/api/proposed_plan_parser.rs:31-60 | one character moves reports from the future to the past and keeps the rule that only a possible tag line is held back |
| PlanText.MeaningIsBalanced | src/llm/src/api/proposed_plan_parser.rs:66-121 | tags alternate and end closed; text inside a block is marked inside, text outside as outside |
| PlanText.OnlyTagLinesDisappear | src/llm/src/api/proposed_plan_parser.rs:91-121 | the reported text is the input without its acting tag lines |
| PlanParser.CoalesceKeepsAtoms | src/llm/src/api/proposed_plan_parser.rs:155-184 | merging text segments changes nothing of what is reported |
| PlanParser.CoalesceCoalesces | src/llm/src/api/proposed_plan_parser.rs:155-184 | no two neighbouring text segments are of the same kind and none is empty |
| PlanParser.ProposedPlanParser.Parse | src/llm/src/api/proposed_plan_parser.rs:28-64 | the run-at-a-time loop leaves the state and the coalesced reports of the character-by-character run |
| PlanParser.ProposedPlanParser.Finish | src/llm/src/api/proposed_plan_parser.rs:66-89 | finishing decides the held line, closes an open block and resets the parser |
| PlanParser.ProposedPlanParser.FinishLine | src/llm/src/api/proposed_plan_parser.rs:91-112 | a complete line is a tag or text as its meaning says, and detection starts again |
| ProposedPlanText.SegmentsMeanLines | src/llm/src/api/proposed_plan_parser.rs:28-89 | the segments of all parse calls and of finish, coalesced, are the coalesced line-by-line meaning |
| ProposedPlanText.ExtractProposedPlanText | src/llm/src/api/proposed_plan_parser.rs:123-140 | the extracted plan is the last plan block of the line-by-line meaning |
| ProposedPlanText.LastBlockWins | src/llm/src/api/proposed_plan_parser.rs:123-140 | with several blocks the plan is exactly the text inside the last one |
| ProposedPlanText.SingleBlockIsWholePlan | src/llm/src/api/proposed_plan_parser.rs:123-140 | with one block everything inside plan blocks is the plan |
| ToolCallTable.AddKeepsConsistent | src/llm/src/api/sse/chat.rs:278-330 | slots, order and seen set hold the same indexes without repeats; recorded ids and the last index point at live slots |
| ToolCallTable.FreshIndexIsLeast | src/llm/src/api/sse/chat.rs:297-304 | the scan for a fresh index skips only indexes in use |
| ToolCallTable.BatchOrder | src/llm/src/api/sse/chat.rs:306-309 | the order list is the order of first use |
| ToolCallTable.BatchSlot | src/llm/src/api/sse/chat.rs:306-328 | a slot holds the first id, the first name and the joined arguments of exactly the fragments routed to it |
| ToolCallTable.RouteFollowsHistory | src/llm/src/api/sse/chat.rs:280-304 | where a fragment goes is decided by the fragments before it; an unseen id without an index gets an unused slot |
| ToolCallTable.NewIndexesGrow | src/llm/src/api/sse/chat.rs:297-304 | the indexes made up for fragments that name no call grow, and none is used twice in a stream, not even behind a finish |
| ToolCallTable.CallsAreRead | src/llm/src/api/sse/chat.rs:316-413 | the calls reported for a batch are, for each slot in the order of first use, those read off its fragments: first id or a made-up one, first name that is not empty, all arguments joined |
| ToolCallTable.ToolCalls.Accept | src/llm/src/api/sse/chat.rs:278-330 | one fragment updates all six structures as the table function says |
| ToolCallTable.ToolCalls.TakeFreshIndex | src/llm/src/api/sse/chat.rs:297-304 | the scan ends at the least unused index from the next one on |
| ToolCallTable.ToolCalls.Drain | src/llm/src/api/sse/chat.rs:389-413 | named calls come out in first-seen order and the table is emptied |
| ChatAssembler.ChatStream.AppendAssistantText | src/llm/src/api/sse/chat.rs:636-664 | a text delta opens the message once, is fed to the plan parser, and is appended and sent |
| ChatAssembler.ChatStream.AppendReasoningText | src/llm/src/api/sse/chat.rs:666-699 | a reasoning delta opens the item once and is sent with the number of deltas before it |
| ChatAssembler.ChatStream.EmitBufferedPlanEvents | src/llm/src/api/sse/chat.rs:714-737 | closing a message sends the rest of its plan deltas and then its plan, if it has one |
| ChatAssembler.ChatStream.ProcessChoice | src/llm/src/api/sse/chat.rs:230-417 | one choice: refusal, content, tool deltas, finish reason |
| ChatAssembler.ChatStream.ProcessChatSse | src/llm/src/api/sse/chat.rs:120-434 | the receive loop sends exactly what the fold over polls says |
| ChatProtocol.EveryRunIsWellFormed | src/llm/src/api/sse/chat.rs:92-434 | on every run a receiver sees items open once, get their deltas with indexes 0,1,2,…, and close with exactly these deltas, plan text included; then the stream ends |
| ChatProtocol.OneTerminalAndLast | src/llm/src/api/sse/chat.rs:92-434 | exactly one event is Completed or an error, and it is the last |
| ChatFailures.RefusalOrLength | src/llm/src/api/sse/chat.rs:538-557 | a choice fails exactly by a refusal of its message, else of its delta, that is not blank, else by the content filter, else by its length |
| ChatEnding.EndsWithErrorIff | src/llm/src/api/sse/chat.rs:120-221 | a run ends with an error if and only if a poll fails with it (transport error, idle timeout, refusal, content filter, length) behind polls that bring only content |
| ChatEnding.CompletesIff | src/llm/src/api/sse/chat.rs:92-434 | a run ends with Completed and a usage if and only if, read off the polls, the stream ends, or a terminal finish reason has its usage, or the wait for one is over by whatever comes; the usage is the last one received |
| ChatEnding.FailureFinishesNothing | src/llm/src/api/sse/chat.rs:133-176 | a run that fails with no terminal finish reason has finished no item |
| ChatContent.ContentIsSent | src/llm/src/api/sse/chat.rs:223-277 | on every run the text and reasoning deltas sent are exactly those read off the polls, in order |
| ChatCalls.CallsAreFinished | src/llm/src/api/sse/chat.rs:278-413 | on every run the calls finished are exactly those that the fragments between finish reasons make up; a stop drops its fragments |
| ChatProtocol.MessagesReportPlans | src/llm/src/api/sse/chat.rs:655-737 | on every run, for every finished message: the plan reported since it began is its last plan block, the plan deltas carry the text inside its plan blocks, and with a single block they join to that plan |
| CompletedChat.CompletedToolCalls | src/llm/src/api/sse/chat.rs:595-634 | the calls of a whole message in order, or the first error |
| CompletedChat.ParseCompletedResponse | src/llm/src/api/sse/chat.rs:483-536 | the output is that of the choices in order, or the first error |
| WholeReading.WholeResponseIs | src/llm/src/api/sse/chat.rs:483-634 | the items are those read off the choices: reasoning, message with its texts, calls with id, name and arguments; or the error of the first choice that cannot be read |
| WholeReading.WholeResponseFailsIff | src/llm/src/api/sse/chat.rs:490-506 | a response is refused with an error if and only if its first unreadable choice has it: refusal, content filter, length, missing function, missing name |
| ChatAgreement.CutCallsAgree | src/llm/src/api/sse/chat.rs:278-413 | calls rebuilt from labelled fragments are the calls of the whole message, in order |
| ChatAgreement.StreamSends | src/llm/src/api/sse/chat.rs:240-417 | content, a finish chunk and anything behind it finish exactly the items the deltas make up |
| ChatAgreement.StreamingAgreesWithWhole | src/llm/src/api/sse/chat.rs:483-634 | however a message is cut into deltas, the streamed items are those of the whole message once text is joined |
| Aggregator.AggregatedStream.PollNext | src/llm/src/api/endpoint/chat.rs:176-317 | a poll yields the next output of the one-pass meaning, nothing yet, or the end, and makes progress |
| Aggregator.AggregatedStream.HandleOutput | src/llm/src/api/endpoint/chat.rs:190-315 | one inner output changes the totals and the pending queue as the one-pass meaning says |
| Aggregator.Collect | src/llm/src/api/endpoint/chat.rs:176-317 | polling to the end yields the one-pass meaning of the inner stream |
| Aggregator.AggregatesAssembledStream | src/llm/src/api/endpoint/chat.rs:183-276 | over an assembled stream the joined text comes once, exactly if it is not empty, directly before Completed |
| Aggregator.StreamsAssembledStream | src/llm/src/api/endpoint/chat.rs:176-317 | in streaming mode an assembled stream keeps its deltas, its Done messages only while there is no text, and ends with the joined items and Completed |
| Aggregator.OthersPass | src/llm/src/api/endpoint/chat.rs:225-315 | over any inner stream, in both modes, creation and summaries never pass, and all events that are neither text nor reasoning pass, in order |
| Aggregator.DoneMessageCounts | src/llm/src/api/endpoint/chat.rs:198-210 | in the default mode, while there is no text, the first output text of a finished message stands for it |
| Aggregator.CompletedResets | src/llm/src/api/endpoint/chat.rs:233-262 | behind a completion text and reasoning are counted anew |
| SemanticEvents.Adapter.AdaptResponseEvent | src/llm/src/semantic.rs:571-664 | adapting an event updates the active handle and the counter as the adapter function says |
| SemanticEvents.AdaptingRoundTrips | src/llm/src/semantic.rs:467-514 | mapping adapted events back gives the original events, less those without a turn event |
| SemanticEvents.EventIsTold | src/llm/src/semantic.rs:571-664 | behind any events: a delta is told under the handle of the item started last and still open, and not without one; an item is reported as its kind, begun under its own handle and completed under the open one, else its own |
| SemanticEvents.OutputIsBracketed | src/llm/src/semantic.rs:571-664 | every item of a whole response is started and completed under one handle, in output order |
| SemanticEvents.StartedHandlesDiffer | src/llm/src/semantic.rs:666-670 | no two items of a whole response are started under the same made-up handle |
| SemanticEvents.WholeResponseIsBracketed | src/llm/src/api/completion.rs:9-41 | adapting the whole event list gives the prefix, Created, one bracket or call per item in order, and Completed |
| SemanticEvents.CompletedResponseEvents | src/llm/src/api/completion.rs:9-41 | a whole response becomes Created, the events of its items in order, and Completed |
| SemanticEvents.PlanTextOf | src/llm/src/api/completion.rs:53-70 | only an assistant message proposes a plan, that of its joined output text |
| SemanticEvents.ItemIsTold | src/llm/src/api/completion.rs:15-25 | an assistant message, reasoning or hosted activity of a whole response begins and ends, with the text of its last plan block between if it is a message that has one; any other item only ends |
| ItemHandles.HandlesMatchIffNeverBothOpen | src/llm/src/runtime_client.rs:263-268 | raw delivery: over a completed stream items are completed under their own handles if and only if no two are ever open together |
| AggregatedHandles.AggregatedHandlesMatchIff | src/llm/src/runtime_client.rs:269-274 | default delivery: they are if and only if no message begins inside a reasoning item and, at the end, there is reasoning text without text and no message began last, or no reasoning text, and no text or a message began last; every completed item was started if and only if there is no reasoning text |
| AggregatedHandles.MatchIffOneKind | src/llm/src/semantic.rs:571-599 | default delivery: a response of one kind always matches, one with text of both kinds never does, and if no item stays without text it matches if and only if reasoning and message do not both occur |
| AggregatedHandles.AllCompletedIff | src/llm/src/api/endpoint/chat.rs:176-317 | default delivery: every started reasoning item is completed, and one more if there is reasoning text; of the started messages one is completed, if there is text; so every started item is completed if and only if no message began, or exactly one did and there is text |
| ItemHandles.OverlapMismatches | src/llm/src/api/sse/chat.rs:240-277 | raw delivery: a stream that ends with reasoning and text both received has a wrong handle |
| ItemHandles.ThinkingThenSpeakingMismatches | src/llm/src/semantic.rs:571-599 | raw delivery: a concrete response that thinks and then speaks has a wrong handle |
| TurnKernel.Turn.HandleEvent | src/core/src/processor.rs:52-219 | what one event adds to the conversation, the calls in flight, the last message, the active handle, the token total and the session events sent |
| TurnKernel.Turn.RunTurn | src/core/src/kernel.rs:99-163 | a turn adds the stream's items and calls in order, then the results in call order up to the first fatal one; its whole outcome, what it sends, and how it fails |
| TurnKernel.Turn.ReleaseResults | src/core/src/kernel.rs:141-162 | results are recorded in call order, whatever order they became ready in |
| TurnOutcomes.LastMessageIff | src/core/src/processor.rs:271-303 | the message reported is the output text of the last completed assistant message that has any |
| TurnOutcomes.TotalTokensIff | src/core/src/processor.rs:212-218 | the total reported is that of the usage of the last completion |
| TurnOutcomes.StreamFailureIs | src/core/src/kernel.rs:111-131 | a turn completes if and only if a completion comes before any poll without an event, and fails as the first such poll says |
| TurnOutcomes.TextIsSent | src/core/src/processor.rs:120-130 | the text deltas sent to the session are those the turn has read, in order |
| ToolScheduling.StepKeepsInvariant | src/core/src/tools/executor.rs:28-62 | every step keeps handlers apart from exclusive ones, answers matched to calls, and releases in order |
| ToolScheduling.ExclusiveRunsAlone | src/core/src/tools/executor.rs:47-53 | in every reachable state no handler runs beside an exclusive one |
| ToolScheduling.OneResultPerCall | src/core/src/tools/executor.rs:28-102 | when the result loop is over it has released one result per call, in call order, each answering its own call, up to the first fatal one |
| ToolScheduling.OneAnswerPerCall | src/core/src/processor.rs:221-234 | the conversation has got exactly the released results, each with the id, tool name and kind of payload of the call at its place |
| ToolScheduling.ResultIsRecorded | src/core/src/tools/executor.rs:28-102 | on every run the recorded result of a call has the content its handler returned, the message it was refused with, or the note that it was aborted: text for text input, structured with items and success for JSON arguments |
| ToolScheduling.FatalStops | src/core/src/tools/executor.rs:52-61 | a fatal result never comes out, nor any behind it, and is the error the result loop meets there |
| ToolScheduling.RefusalIsFlaggedIff | src/core/src/tools/executor.rs:52-80 | on every run, a call refused with a message is recorded with that message, marked as failed if and only if it has JSON arguments |
| ToolScheduling.UnknownToolIsFlaggedIff | src/core/src/tools/registry.rs:77-82 | so is a call to an unknown tool |
| ToolScheduling.EveryRunIsShort | src/core/src/kernel.rs:141-162 | no run is longer than three steps per call and one cancellation |
| ToolScheduling.NeverStuck | src/core/src/tools/executor.rs:28-62 | until all results are out or one is fatal, some tool future can move |
| Retry.StreamingPreference.PreferHttpFallback | src/llm/src/transport.rs:15-17 | the swap succeeds once, and only with realtime streaming |
| Retry.TurnTask.HandleTurnFailure | src/llm/src/runtime.rs:540-580 | a failure is charged, pays with the fallback, or ends the run |
| Retry.TurnTask.RunTurn | src/llm/src/runtime.rs:454-534 | the loop ends by a measure of unused fallback and remaining retries, and does what the run function says |
| Retry.RunFrom | src/llm/src/runtime.rs:454-534 | the number of attempts is at least one and at most one more than the budget |
| Retry.AttemptsAreBounded | src/llm/src/runtime.rs:440-580 | with limit L at most 2L + 2 attempts with a fallback to take, at most L + 1 without |
| Retry.RefusedEveryTime | src/llm/src/runtime.rs:463-481 | if every request is refused with whatever retryable error, exactly the whole budget is used |
| Retry.BrokenEveryTime | src/llm/src/runtime.rs:493-530 | if every stream breaks, each attempt costs two units and half as many attempts are made |
| Retry.FirstAskSwitches | src/llm/src/transport.rs:15-17 | among all sessions sharing a preference exactly the first eligible request switches |
| Retry.SwitchedFirst | src/llm/src/transport.rs:15-17 | a turn that switches does so at a request before which no eligible request of any session stands |
| Retry.SharedAttempts | src/llm/src/runtime_client.rs:294-311 | over all turns of all sessions whose requests to fall back stand in one order on one flag: at most one switch, none if the flag was up, and at most (turns + 1) · (L + 1) attempts |
| Retry.BackoffDoubles | src/llm/src/runtime.rs:591-595 | default delays double from 200 ms and stay at 12.8 s |
| Retry.DelaysAreBounded | src/llm/src/runtime.rs:571-595 | every delay of a run is the server's or a default one of at most 12.8 s for a retry within the limit |
| Retry.RunTellsAll | src/llm/src/runtime.rs:454-536 | a run forwards the events of its attempts in order and at most one error, last; only the last attempt may have completed, and did unless there is an error |
| RetryRules.FinalErrorEndsRun | src/llm/src/runtime.rs:597-605 | over every run, an attempt failing with an error of another kind, or without streaming with any but a retryable refusal, is the last, and its error is the last thing sent |
| RetryRules.TransientErrorIsRetried | src/llm/src/runtime.rs:540-580 | over every run, an attempt failing with any other error and no completion is followed by another while the limit allows two retries for each attempt so far |
| RetryRules.RefusalsAreTold | src/llm/src/runtime.rs:568-589 | requests refused one after the other are announced as retries 1, 2, … of the limit, each with the wait the server asked for or the default one |
| RetryRules.BehindTheLimit | src/llm/src/runtime.rs:552-567 | one more refusal than the limit: a streaming turn that may fall back says so and goes on, any other ends with that error |
| SessionLog.RunCollectText | src/core/src/session.rs:184-248 | the loop returns exactly if the submission was decided before an Idle event, with the outcome of its first deciding event |
| SessionLog.ResultIsFirst | src/core/src/session.rs:210-236 | the outcome is that of the first turn needing no follow-up, failure or abort, wherever it stands |
| SessionLog.OverByIdle | src/core/src/session.rs:184-248 | on any log holding a complete submission, with foreign events mixed in, the loop returns |
| SessionLog.CollectComplete | src/core/src/session.rs:184-248 | what it returns depends on that submission's own events only |
| SessionState.State.TryActivate | src/core/src/session.rs:300-312 | a session with an active turn is busy; else the turn becomes active and the status Running |
| SessionState.State.PushInput | src/core/src/session.rs:123-143 | an input joins the back of its queue |
| SessionState.State.TakeQueue | src/core/src/session.rs:567-580 | draining empties the queue and joins the items of its inputs in order |
| SessionState.State.AppendItems | src/core/src/session.rs:554-557 | items join the end of the conversation and nothing else changes |
| SessionState.State.Release | src/core/src/session.rs:470-473 | the session is idle and has no active turn |
| SessionState.State.RequestAbort | src/core/src/session.rs:153-165 | with an active turn the status becomes Aborting and its token is returned |
| Session.AcceptedContinueFeeds | src/core/src/session.rs:107-121 | an accepted continuation that is left alone starts a turn with the queued steering inputs, else the follow-up inputs, behind the conversation; without queued inputs the conversation does not end with an assistant message; it fails as empty exactly if there was no conversation and the queued inputs hold no items |
| Session.StepKeepsOneLive | src/core/src/session.rs:293-480 | every step keeps: Idle exactly without an active turn, only the active submission is live, ids in order |
| Session.StepKeepsFit | src/core/src/session.rs:339-480 | every step keeps what each submission has sent within its grammar, at the place where its driver stands |
| Session.StepConserves | src/core/src/session.rs:559-588 | every step keeps: items ever pushed to a queue are those appended, then in the driver's hands, then queued |
| Session.StepRecords | src/core/src/session.rs:554-557 | every step only extends the conversation, by the batches it records |
| Session.StepKeepsRun | src/core/src/session.rs:339-375 | every step keeps: the input of a run is appended whole, at most once and before its first turn |
| Session.EveryRunIsSafe | src/core/src/session.rs:100-480 | all of these in every reachable session, over every interleaving of callers and drivers |
| Session.ConversationGrows | src/core/src/session.rs:554-557 | over every run the conversation only grows |
| Session.FinishedSubmissionsReturn | src/core/src/session.rs:184-248 | a submission whose driver is gone has sent a complete log, so collecting its text returns |
| SessionEndings.SentIffCaused | src/core/src/session.rs:345-468 | for every finished submission of every run: it has sent an abort, a failure with an error or a completed turn if and only if its run has a cause for it: cancellation seen at the loop top or behind a turn, the error or abort of its turn, a request not built, nothing to begin with, a turn that returned |
| SessionEndings.OutcomeHasCause | src/core/src/session.rs:184-248 | its collecting loop returns a text exactly if a turn returned needing no follow-up, else aborted exactly with a cause to abort, else failed with exactly the error it had a cause for |
| SessionCalls.CancelledIff | src/core/src/session.rs:153-174 | in every reachable session a submission is cancelled if and only if some call found it active and then cancelled its token |
| SessionCalls.PushIsAnnounced | src/core/src/session.rs:123-151 | over every run an announcement of a queued input logs the input of its push, under its queue |
| SessionCalls.ContinuationWasAllowed | src/core/src/session.rs:107-121 | over every run a continuation that activates its turn found, when it checked, no active turn, and an input or a conversation that does not end with an assistant message |
| Session.CancelledStops | src/core/src/session.rs:153-174 | from the moment its token is cancelled a submission starts at most one more turn, over every interleaving |
| Session.CancelledEnds | src/core/src/session.rs:339-480 | from cancellation on, over every interleaving, a driver makes at most twelve moves, arrivals on its stream not counted; until it is gone it can take a step of its own, and with the twelfth it is gone |
| Session.LateInputStays | src/core/src/session.rs:442-479 | one such run, from any state about to be released: an input pushed there is still queued when the session is idle |
| SessionQueues.LeftQueuedIff | src/core/src/session.rs:123-151 | in every reachable session a queue holds exactly the inputs pushed behind its last drain; it is empty if and only if none was |
| SessionQueues.EndedSubmissionLeaves | src/core/src/session.rs:442-479 | for a submission that ends by itself the last drain of either queue is its own behind its last turn, and when it goes idle the queue holds exactly the inputs pushed since |
| SessionStatus.StaleIdleIff | src/core/src/session.rs:470-479 | over every interleaving: when a submission sends its Idle event the session is not idle if and only if a call that began behind the release is active |
| SessionStatus.StatusesOverlap | src/core/src/session.rs:293-337 | from every state about to be released there is a run that logs the next Running directly before this Idle |
| CollectedText.DecisionsAreCounted | src/core/src/session.rs:401-452 | in every reachable session a submission has been decided once for every time it went on behind a decision, and once more if the last one stands |
| CollectedText.CollectsLastTurnIff | src/core/src/session.rs:184-248 | for every finished submission of every run the collecting loop returns the outcome of its first decided turn, and that is its last turn if and only if no input was drained and no cancellation seen behind a turn that needed no follow-up |
| CollectedText.AskOnceReturnsLastTurn | src/core/src/manager.rs:27-32 | in a session nobody pushes to or cancels, all turns but the last needed a follow-up and the outcome returned is that of the last |
| CollectedText.SteeredTextDiffers | src/core/src/session.rs:442-452 | for any two texts a steered run whose loop returns the first while its last turn says the second |
| ChatRequest.AnchorsAreNear | src/llm/src/api/requests/chat.rs:77-173 | reasoning is anchored only to an assistant message or call behind the last user message, at most two positions away |
| ChatRequest.AnchoredIff | src/llm/src/api/requests/chat.rs:95-173 | a reasoning item is anchored if and only if it has text that is not blank, no user message behind it, and an assistant message or a call next to it; and to which one |
| ChatRequest.AnchorReasoning | src/llm/src/api/requests/chat.rs:77-173 | the anchor map holds, for every item, the texts anchored to it joined in transcript order |
| ChatRequest.ChatRequestBuilder.Build | src/llm/src/api/requests/chat.rs:73-357 | both passes produce the messages of the fold over items |
| ChatRequest.ChatRequestBuilder.BuildItem | src/llm/src/api/requests/chat.rs:177-349 | one item is appended, folded into a message with calls, or dropped as a repetition |
| ChatRequest.ChatRequestBuilder.PushToolCallMessage | src/llm/src/api/requests/chat.rs:372-408 | a call joins the message before it exactly if that has calls and no text |
| RequestMeaning.MessagesSayTheTranscript | src/llm/src/api/requests/chat.rs:175-351 | flattening the messages gives back the pieces of all calls, results and other messages in order, and the assistant text less immediate repetitions |
| RequestReading.RequestReadsAsTranscript | src/llm/src/api/requests/chat.rs:175-351 | what is read off the wire messages is what is read off the items: role with developer downgraded, text or parts in order, id, name and arguments or input of calls, call id and content of results |
| RequestReasoning.AnchoredReasoningIsCarried | src/llm/src/api/requests/chat.rs:213-264 | every anchored text is carried by exactly one message, in order, except those of dropped repetitions |
| ToolAdjacency.SplitsIff | src/llm/src/api/requests/chat.rs:213-248 | a turn splits exactly if a text that does not repeat the one before it stands between two of its calls |
| ToolAdjacency.AdjacentOwesNothing | src/llm/src/api/requests/chat.rs:300-349 | adjacent messages answer as many calls as they make |
| ToolAdjacency.RequestIsAdjacentIff | src/llm/src/api/requests/chat.rs:213-248 | from user inputs and turns, each message with calls is followed immediately by exactly its tool messages, in order, if and only if no turn splits and every turn has answered all its calls |
| ToolAdjacency.TextBetweenCallsBreaks | src/llm/src/api/requests/chat.rs:372-408 | a turn of a call, a text and a call is never adjacent |
| OneChoice.OneChoiceInOrder | src/llm/src/api/sse/chat.rs:120-434 | a stream with one choice per chunk finishes no message behind a call, and finishes nothing if it fails |
| OneChoice.WholeChoiceInOrder | src/llm/src/api/sse/chat.rs:483-536 | a whole response of one choice has no message behind a call |
| EndToEnd.AggregatedEnds | src/llm/src/api/endpoint/chat.rs:183-276 | an aggregated response finishes reasoning and calls, then at most one message, then ends; a failed one has no message |
| EndToEnd.RawEnds | src/llm/src/api/sse/chat.rs:92-434 | a raw stream finishes only reasoning, calls with JSON arguments and messages of text, then ends |
| EndToEnd.WholeEnds | src/llm/src/api/completion.rs:9-41 | a whole response finishes exactly its output items, then ends |
| EndToEnd.ToldShape | src/llm/src/runtime.rs:454-536 | a turn's events finish the items of all its attempts in order, failed ones included; only the last attempt may have completed |
| EndToEnd.TurnReads | src/core/src/kernel.rs:111-139 | a turn reads a beginning of what its attempts finish, and all of it if it completes |
| EndToEnd.TurnIsSegment | src/core/src/kernel.rs:108-163 | a turn adds what it reads and the results of its first calls; it has answered all its calls unless it fails behind one |
| EndToEnd.KernelAddsTurn | src/core/src/kernel.rs:108-162 | that is what the kernel's own contract adds for its polls, with the result loop given what the tool run resolves to |
| EndToEnd.TurnNeverSplits | src/llm/src/runtime_client.rs:241-280 | a turn over aggregated streams, or over raw streams or whole responses of one choice, never splits, wherever it breaks off |
| EndToEnd.NextRequestIsAdjacentIff | src/llm/src/api/requests/chat.rs:372-408 | whatever is streamed, retried, scheduled, cancelled or failing, behind any transcript of inputs and turns: the next request has every tool_calls message followed by exactly its tool messages if and only if no turn splits and none fails behind one of its calls |
| EndToEnd.NextRequestIsAdjacent | src/llm/src/api/requests/chat.rs:213-248 | if every turn is aggregated, or raw or whole with one choice, it has if and only if no turn fails behind one of its calls |
| ChatRetries.StreamFails | src/llm/src/error.rs:69-90 | a streamed attempt fails as its polls do: a broken or idle stream counts as a disconnection with its message, a refusal, the content filter or the length as an error of another kind |
| ChatRetries.RefusalEndsTurn | src/llm/src/runtime.rs:493-513 | whatever the limit, an attempt refused, filtered or cut off by its length is the last of its turn and its error the last thing sent |
| ChatRetries.BrokenStreamIsRetried | src/llm/src/runtime.rs:516-530 | an attempt whose stream breaks or idles before any finish reason is followed by another while the limit allows two retries for each attempt so far |
| SessionTurns.TurnsStandTogether | src/core/src/session.rs:339-480 | in every reachable session the items of a turn stand together, and the conversation is the one it began with and the stretches appended since |
| SessionTurns.RequestIsBuiltFirst | src/core/src/session.rs:378-400 | in every reachable session a turn that builds its request has added nothing yet: the conversation is what the stretches before it make up |
| SessionTurns.SessionRequestIsAdjacentIff | src/core/src/session.rs:482-500 | over every interleaving, behind any transcript of inputs and turns: when a session whose inputs are user messages and whose turns so far are chat turns builds its next request, that is adjacent if and only if no turn splits and none failed behind one of its calls |
| Mcp.RequalifyingRestores | src/core/src/mcp/mod.rs:22-40 | qualifying the parts of any name that splits gives back the name |
| Mcp.SplittingRestores | src/core/src/mcp/mod.rs:22-40 | splitting a qualified name gives back server and tool if and only if the tool is not empty and the server has no delimiter and no trailing underscore |
| McpSchema.SanitizeJsonSchema | src/core/src/mcp/mod.rs:183-251 | the rewriting pass computes the simultaneous rewriting of all subschemas |
| McpSchema.NormalizeType | src/core/src/mcp/mod.rs:212-231 | the type is the declared one, else the first known of a list, else inferred, normalised to five |
| McpSchema.SanitizedIsSane | src/core/src/mcp/mod.rs:183-251 | every schema reached has one of five types, properties if an object, items if an array |
| McpSchema.SanitizedType | src/core/src/mcp/mod.rs:207-284 | the type of every sanitised schema is the declared one, an integer counting as a number and an unknown one as a string, else the one its fields imply; missing properties are empty and missing items are strings |
| McpSchema.SaneAreTheFixedPoints | src/core/src/mcp/mod.rs:183-251 | sanitising is idempotent on every JSON value, and leaves a value alone if and only if it is sane |
| McpSchema.OtherFieldsStay | src/core/src/mcp/mod.rs:183-251 | no field is dropped and none changes but the type and the subschemas; a declared known type stays |

## Left out

- HTTP, WebSocket, proxies, compression, SSE byte decoding and JSON text parsing: streams start as finite lists of decoded chunks, schemas as JSON values.
- Clocks: timeouts are answers of the event source that may come at any poll; delays are recorded numbers.
- Channels: append-only logs with a live receiver; a receiver that is dropped early is not modelled.
- Integer widths: indexes, counters and submission ids are unbounded; saturating arithmetic never saturates at the modelled sizes.
- Unicode: white space is the Unicode property; a character is a Dafny `char`.
- Token usage: the estimate that `map_chat_response_stream` fills in when the provider sends none, and tool output token counts.
- Tool handlers: any result of a handler is allowed.
- EndToEnd.NextRequestIsAdjacentIff: inputs are user messages; items that an application records by other means are not modelled.
- SessionTurns.SessionRequestIsAdjacentIff: that a session's turns are chat turns is a premise, since the session model lets any items arrive on a stream.
- AggregatedHandles.AggregatedHandlesMatchIff: completed streams; a failed stream completes no joined item.
- ChatAgreement.StreamingAgreesWithWhole: one choice; calls carry an index, first appear in index order, have distinct ids and whole names.
- Aggregator.AggregatesAssembledStream: the aggregated mode only; the one-pass meaning and the polled stream cover both modes.
- Mcp.SplittingRestores: the conversion of MCP results and arguments is not modelled.
- McpSchema.SanitizeJsonSchema: builds the rewritten value and does not update a shared tree in place; a map is a Dafny map, without an order of keys.
- Session.EveryRunIsSafe: the driver's loop is a step function over its program points, since callers act between its awaits; a lock-held region is one step; the events of a turn are arbitrary, and `TurnKernel` says which they are.
- SessionLog.RunCollectText: reads a finite log and reports waiting; receiving on a closed channel is not modelled.
- Responses and Messages dialects (`requests/responses.rs`, `requests/messages.rs`, `sse/responses.rs`, `sse/messages.rs`), skills, snapshots, headers and telemetry: item-by-item mappings that would add only easy members.
