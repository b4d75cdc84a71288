# Verified model of a deep-research service

The repository is a research assistant in three parts. An agent written in Python drives a language model
through tool turns and streams what happens as events. A service written in Go stores conversations, runs and
events, hands runs to the agent over message topics and streams events to browsers. A client written in
TypeScript folds those events into what the user sees. This project models the protocols of these parts in
Dafny 4.11 and proves what they promise.

| file | component |
|---|---|
| `Common.dfy` | options, results, string concatenation, subsequences |
| `TokenEstimate.dfy`, `Messages.dfy`, `Compact.dfy`, `WindowCost.dfy` | the context window: token estimate, pairing of tool calls and results, block splitting, compaction plan, rewriting the message list in place, and what its counts say about its texts |
| `Session.dfy`, `Continuation.dfy`, `Completion.dfy`, `RunLog.dfy`, `ToolTasks.dfy`, `Engine.dfy` | the ReAct engine: event log, streaming sinks, finish reasons, the terminal protocol, the tasks of a tool turn and what happens when one raises, and the run loop itself |
| `WakeQueue.dfy`, `Store.dfy`, `Protocol.dfy` | the run, slot and wake protocol as a step system over SQL statements, mutex sections and topic writes of any number of goroutines |
| `SlotSafety.dfy`, `StartCommands.dfy`, `WakeConservation.dfy`, `WakeAttention.dfy`, `WakeLaunch.dfy` | what holds over every history of that protocol |
| `Persist.dfy`, `HandleRefinement.dfy` | the persist consumer and at-least-once delivery |
| `Supervisor.dfy`, `SupervisorTables.dfy` | the subagent supervisor: interleaved steps, and its tables changed in place |
| `Glob.dfy` | the glob compiler and the meaning of its output |
| `Hub.dfy`, `Readers.dfy`, `Trace.dfy` | event streams: subscriptions, replay and live delivery, client folds |
| `EndToEnd.dfy` | what a run that the engine has ended leaves in the database and on the screen |
| `StreamAssembly.dfy`, `Provider.dfy`, `Decimal.dfy` | reassembly of a streamed completion, such completions as the engine's model, decimal printing and parsing |

How the outside world enters: a model call is an arbitrary reply (streamed pieces, then a result or an
exception), a tool an arbitrary answer, the JSON parser of tool arguments an arbitrary function that gives the
exception escaping from it, if one does, the cancel flag an arbitrary moment at which it goes up and stays up,
the summarizer of the context window an arbitrary text or failure. Replies, tool answers and summaries are total
functions from the number of the call. In the protocol of the service every statement may also fail, before or
after its effect, and the next step of any goroutine may come at any time. Event emitters and tracers, and what is
computed for them, do not raise, and tools return texts.

Some plain claims are false of the code. For each of them there is an input that shows it, and the exact condition
under which the code does meet it:

| claim | fails on | holds exactly when |
|---|---|---|
| a run ends properly: one message, one end, nothing after that, and no tool call open | `ToolTasks.AbandonedCall`: a reply with two tool calls, where the parser refuses the arguments of the second with an exception that is not caught, such as that for a number of too many digits | `ToolTasks.ProperExactly` for a tool turn under every interleaving, `Engine.Run.EndsExactly` for a run: the turn does not mix calls whose arguments parse with calls whose arguments raise |
| every tool call in the conversation has its result | `Messages.DanglingHead`: a tool turn that raised leaves its calls without results | `Engine.Run.RunLoop`: no tool turn raised; the windows given to the model are paired in any case |
| a report that waits while its slot is free is about to be launched | `WakeCanStrand` | `AttendedExactly`: no step of the history fails a look at the conversation, loses the callback of a cleared slot, or puts a batch back into a free slot, with no other goroutine about to look |
| a final status is final | `FinalStatusIsOverwritten` | `FinalStatusChanges`: no new end event of the run gives another one |
| a status never goes back | `StatusCanGoBack` | `StatusGoesForward` for one event; over whole delivery sequences `StatusNeverFalls` shows that end events with final statuses suffice, and `EndedRunGoesForward` that the engine sends no others |
| a redelivered event changes nothing | `RedeliveryCreatesChild` | `RedeliveryEffect`: it announces no missing child |
| redelivery repairs a handler that failed half way | `CrashLoses` | `CrashThenRedelivery`: the statements and the callback left would have changed nothing |
| the sweeper ends any stale or orphaned run | `SweeperIsTooLate` | `SweeperEffect`: no other event has taken the number of its end |
| the newest report wins | `OlderReportWins` | `MergedIds`: no report of the restored batch has its id, or it is in that batch itself |

## Model

| member | source | states |
|---|---|---|
| `TokenEstimate.EstimateTokens` | agent/src/agent_service/context/compact.py:49-62 | the buffered loop counts one token a CJK character and a rounded-up quarter for every maximal run of others |
| `TokenEstimate.EstimateOfConcatenation` | agent/src/agent_service/context/compact.py:49-62 | the estimate of a concatenation is the sum of the estimates, less one token exactly when the cut falls inside a run whose two parts round up past the whole |
| `TokenEstimate.EstimateAtMostLength` | agent/src/agent_service/context/compact.py:49-62 | an estimate is at most the length of the text, and positive for nonempty text |
| `Messages.WellPairedAppend` | agent/src/research_engine/loop.py:407-432 | putting a paired list after a paired list keeps every tool call next to its results |
| `Messages.ToolTurnWellPaired` | agent/src/research_engine/loop.py:416-432 | an assistant message with tool calls followed by one result a call, in call order, is paired |
| `Messages.DanglingHead` | agent/src/research_engine/loop.py:416-430 | a conversation that ends with a message with tool calls is not paired |
| `Compact.TakeGroup` | agent/src/agent_service/context/compact.py:94-101 | a tool-call message takes all tool messages right after it into its block, and no other |
| `Compact.SplitPairBlocks` | agent/src/agent_service/context/compact.py:84-122 | the scan gives the leading system messages and the blocks of the rest; its branch that appends to the previous group is never taken |
| `Compact.BlocksFlatten` | agent/src/agent_service/context/compact.py:84-122 | the blocks concatenated are the messages |
| `Compact.NoBlockCutsAPair` | agent/src/agent_service/context/compact.py:84-122 | no boundary between blocks separates a continuation pair or a tool result from its group |
| `Compact.BlockShape` | agent/src/agent_service/context/compact.py:84-122 | every block is a tool call with tool messages, a continuation pair, or one message |
| `Compact.TrailingPairIsLastBlock` | agent/src/agent_service/context/compact.py:102-112 | a continuation pair at the end of a list is its last block, whole |
| `Compact.BlocksOfSuffix` | agent/src/agent_service/context/compact.py:84-122 | splitting again what remains after dropping leading blocks finds the same blocks |
| `Compact.RewrittenSplits` | agent/src/agent_service/context/compact.py:178-200 | splitting a compacted window gives back its system messages, the summary as one block, and exactly the kept blocks |
| `Compact.PlanCompact` | agent/src/agent_service/context/compact.py:125-147 | there is a plan exactly when the window is over budget and has two blocks; it partitions the blocks and keeps the longest suffix that fits beside the reserve, or else the last block |
| `Compact.PlanIsUnique` | agent/src/agent_service/context/compact.py:125-147 | at most one partition satisfies what a plan promises |
| `Compact.CompactionReachesBudget` | agent/src/agent_service/context/compact.py:158-200 | if the summary stays within the reserve and the last block fits, the new window is within budget and a second call makes no plan |
| `Compact.CompactionCounts` | agent/src/agent_service/context/compact.py:169-198 | every message is dropped or kept, and exactly one summary is added |
| `Compact.PackedKeepsPairing` | agent/src/agent_service/context/compact.py:158-200 | compaction keeps a paired list paired |
| `Compact.PackedKeepsTrailingPair` | agent/src/agent_service/context/compact.py:158-200 | compaction keeps a trailing continuation pair whole and at the end |
| `Compact.ContextPacker.Pack` | agent/src/agent_service/context/compact.py:158-200 | the list is left alone or overwritten in place by the plan's window, with one event that counts dropped and kept messages; the summarizer is asked once exactly when there is a plan; an unchanged list comes back as a copy |
| `WindowCost.EstimateBounds` | agent/src/agent_service/context/compact.py:49-62 | a token stands for four characters at most, and for one CJK character at most |
| `WindowCost.AlphabetEstimate` | agent/src/agent_service/context/compact.py:49-67 | a text in a script below the CJK ranges costs a quarter of its length, rounded up |
| `WindowCost.CjkEstimate` | agent/src/agent_service/context/compact.py:49-67 | a text of Han ideographs, kana and Hangul costs its length |
| `WindowCost.MessageBounds` | agent/src/agent_service/context/compact.py:70-77 | a message costs at least a quarter of the characters of its content, ids and calls, and more than its content and four |
| `WindowCost.EmptyMessages` | agent/src/agent_service/context/compact.py:70-77 | messages without text cost 5 to 7 tokens, by their roles |
| `WindowCost.MessageChange` | agent/src/agent_service/context/compact.py:70-77 | changing the content, the call id or the calls of a message changes its cost by exactly the change of the estimates |
| `WindowCost.WindowChange` | agent/src/agent_service/context/compact.py:80-81 | changing one message of a window changes its count by the change of that message |
| `WindowCost.ContentChange` | agent/src/agent_service/context/compact.py:70-81 | changing one content of a window changes its count by exactly the change of the estimates |
| `WindowCost.WindowBounds` | agent/src/agent_service/context/compact.py:70-81 | a window counts at least a quarter of its characters, its CJK characters, and its contents with five a message |
| `WindowCost.WithinBudgetIsShort` | agent/src/agent_service/context/compact.py:125-147 | a window within budget has at most four characters, and at most one CJK character, a token of the budget |
| `WindowCost.OverlongIsCompacted` | agent/src/agent_service/context/compact.py:125-200 | a window of two blocks whose contents alone are estimated above the budget loses blocks to the summary, if the summarizer answers |
| `WindowCost.SummaryIsKept` | agent/src/agent_service/context/compact.py:178-179 | the summary message is the summarizer's text between two tags |
| `WindowCost.JsonLength` | agent/src/agent_service/context/compact.py:74-76 | a quoted text of the calls has its length and what its escapes add |
| `Continuation.BoundaryOverlapIsGreatest` | agent/src/research_engine/continuation.py:15-21 | the overlap is 0 or from 16 to 2048, suffix and prefix agree on it, and no size in that range on which they agree is greater |
| `Continuation.PrefixDecides` | agent/src/research_engine/continuation.py:64-90 | deciding on the first 2048 characters of a segment decides for the whole |
| `Continuation.JoinedText` | agent/src/research_engine/continuation.py:15-29 | the joined text starts with the committed text and ends with the whole new segment |
| `Continuation.LiveDeltas.Emit` | agent/src/research_engine/continuation.py:40-45 | nonempty text goes to the log as one event, empty text not at all |
| `Continuation.ContinuationDeltas.Emit` | agent/src/research_engine/continuation.py:64-75 | after every piece the log reads what is decided: nothing before 2048 characters, then all but the overlap |
| `Continuation.ContinuationDeltas.Finish` | agent/src/research_engine/continuation.py:77-90 | the overlap of the whole segment is returned, and exactly the rest of it has been emitted |
| `Continuation.StreamSegment` | agent/src/research_engine/continuation.py:51-90 | chunking invariance: however a segment is cut into pieces, the events read it without the overlap of the whole segment |
| `Engine.Run.Feed` | agent/src/research_engine/loop.py:385-392 | all pieces of a reply reach the sink in order, the log grows by what the sink forwards, and its reasoning by the reasoning pieces |
| `Engine.Run.Complete` | agent/src/research_engine/loop.py:359-404 | one model call: progress is announced first, the window given is the prepared list, compacted with the packer's summary if at all, the reply is passed on or raised |
| `Engine.Run.CallModel` | agent/src/research_engine/loop.py:240-259 | the window is the conversation, perhaps compacted in place, or for a continuation a copy that still ends with the pair; every window stays paired |
| `Engine.Run.Show` | agent/src/research_engine/loop.py:260-272 | after a call the text shown is on the log once: streamed, or emitted whole if none streamed; calls not asked for are dropped |
| `Engine.Run.Settle` | agent/src/research_engine/loop.py:273-293 | cancellation, a bad finish reason, or a third truncated tool call end the run with their own status, reason and error event; nothing else does |
| `Engine.ContinuationAsks` | agent/src/research_engine/loop.py:315-318 | the window of a continuation ends with what was said so far, from the model, and the prompt to go on |
| `Engine.Run.Announce` | agent/src/research_engine/loop.py:306-314 | a continuation is announced with its number, limit and provider reason |
| `Engine.Run.LogicalAssistant` | agent/src/research_engine/loop.py:214-333 | at most two calls are thrown away, each cut off in a tool call, then one is kept, then at most C continuations, each after a reply at the output limit and announced, on the conversation with what is joined so far; the outcome is decided by the last reply: an answer, tool calls, an exception, or an early end with its reason, and the flag; its content is the texts of the kept calls joined; if these stream wholly or not at all, the text on the log is what the discarded calls streamed followed by the text returned |
| `Engine.Run.Round` | agent/src/research_engine/loop.py:240-301 | one round: one call on one window, its text shown once, and an early end or a truncated tool call recognised |
| `Engine.Run.Gather` | agent/src/research_engine/loop.py:430-432 | the calls run as some history of steps of their tasks; if none raises, each is announced, each started call is finished exactly once, after its start, and its text is what an invocation of its own answered, or the refusal its answer asks for, as its end event reports, or "cancelled" under the flag; no invocation serves two calls, and none happens once the flag is up; the first exception ends the waiting and leaves the other tasks where they are |
| `Engine.Run.RunTools` | agent/src/research_engine/loop.py:407-436 | a tool turn appends the assistant message with its calls and one result a call in call order, each from its own invocation, keeps pairing, and ends the run exactly when cancelled; a turn that raises leaves its message without results |
| `Engine.ToolTurnHolds` | agent/src/research_engine/loop.py:416-432 | the assistant message has the content and each call with its arguments, or an empty object for none, and the i-th message after it is the i-th call's text |
| `Engine.Run.EmitReasoning` | agent/src/research_engine/loop.py:188-193 | text of a tool turn that did not stream becomes reasoning, whole |
| `Engine.Run.StreamChunks` | agent/src/research_engine/loop.py:534-539 | the chunks emitted concatenate to the answer, or else the run is cancelled |
| `Engine.Run.HandleFinal` | agent/src/research_engine/loop.py:505-541 | the run succeeds with the answer cut to the limit, is cancelled, or fails because it is blank; cancelled only under the flag and always when it was up before; streamed text is never emitted again |
| `Engine.Run.StepBody` | agent/src/research_engine/loop.py:150-205 | a turn makes at most C + 3 calls, each on a window of its own and announced with the number of the turn, and either ends the run, as its last reply decides, or continues it with its tool calls run, their results in the conversation and its text noted, or raises, out of the model or out of a tool turn with tasks left behind |
| `Engine.Run.Turns` | agent/src/research_engine/loop.py:50-76 | for any number of turns: the call bound, one paired window a call, every turn before the last has run its tools and the next begins where it stopped, the run ends as the last reply decides, and goes on exactly as far as the cap when all turns run their tools |
| `Engine.Run.RunLoop` | agent/src/research_engine/loop.py:28-110 | whatever model, tools, argument parser and cancel flag do: at most T(C+3)+C+1 calls, each on a window of its own, every window paired if the conversation was; every turn before the last ran its tools on the conversation the one before left; the two events that end the run, with content, mark, status and reason, are those the last call's reply decides, or say cancelled under the flag; one completed message and one finished event; when the latest tool turn does not mix calls that parse with calls that raise, the finished event directly follows the message at the very end with every tool call balanced before; no call at all when the flag was up from the start; and the answer streamed in the last turn, after what that turn's own discarded calls streamed, if the calls it kept stream wholly or not at all |
| `Engine.Run.SucceedsExactly` | agent/src/research_engine/loop.py:273-333 | a run that was not cancelled succeeds exactly when its last call returned, without tool calls or where none are asked for, its reason is none, an ordinary one or the output limit, and the kept texts joined and cut to the limit are not blank; the message is then that text, also for replies that stream in part, marked as cut exactly when the text was longer or the reason was the limit |
| `Engine.Run.RunUncapped` | agent/src/research_engine/loop.py:49-77 | a run without a turn cap has, after any number of turns, either ended, as a run with a cap does and as its last reply decides, or has run the tools of every turn and goes on with tool calls balanced, with one paired window a call |
| `Engine.Run.LastTurn` | agent/src/research_engine/loop.py:78-106 | after the last turn allowed a cancelled run ends without a call, and any other makes at most C + 1 calls without tools, throws none away, and ends the run as its last reply decides, or raises |
| `Engine.Run.Fail` | agent/src/research_engine/loop.py:107-110 | the handler emits its three events, while tasks that were left behind may take any steps in between; without such tasks it emits nothing else |
| `Engine.Run.Linger` | agent/src/research_engine/loop.py:430-502 | tasks left behind may go on after the run: it has still ended once, and properly when its latest tool turn was not mixed |
| `Engine.Run.OutcomeEnds` | agent/src/research_engine/loop.py:107-110 | however its tool turns go, a run that is over has completed one message and then finished once, and properly when no tool turn was mixed |
| `Engine.Run.EndsExactly` | agent/src/research_engine/loop.py:407-446 | a run that is over ends properly under every interleaving of its latest tool turn, and whatever the tools answer in it, exactly when that turn was not mixed |
| `Engine.StreamedIsAnswer` | agent/src/research_engine/loop.py:505-541 | the message of a succeeded run is the prefix of the streamed text of its last turn when nothing was discarded; when it fits the limit, it is that text exactly then |
| `Completion.KnownReasons` | agent/src/research_engine/completion.py:23-56 | what each known finish reason means, with tool calls and without |
| `Completion.OtherReasons` | agent/src/research_engine/completion.py:36-56 | any other word is an unknown reason, except that with tool calls it means them |
| `Completion.NoReason` | agent/src/research_engine/completion.py:36-56 | no reason or a blank one means tool calls or a finished answer |
| `Completion.CaseDoesNotMatter` | agent/src/research_engine/completion.py:36-56 | two reasons that differ in case only mean the same |
| `Completion.SpaceDoesNotMatter` | agent/src/research_engine/completion.py:36-56 | white space around a reason does not matter |
| `Engine.PreparedKeepsPairing` | agent/src/research_engine/loop.py:374-377 | preparing a window keeps it paired |
| `ToolTasks.GatherStep` | agent/src/research_engine/loop.py:430 | the calls open on the log are always those of the coroutines under way |
| `ToolTasks.HistoryKept` | agent/src/research_engine/loop.py:430-502 | in every history of a tool turn: tasks are where their arguments let them be and are reported; while the run waits, the open calls on the log are those under way; once it is failed, it has emitted so much of the handler of one exception |
| `ToolTasks.AllDoneCompletes` | agent/src/research_engine/loop.py:430-432 | a turn all of whose tasks are done is complete: calls closed, every text reported, nothing has ended the run |
| `ToolTasks.TasksAreIndependent` | agent/src/research_engine/loop.py:439-502 | however the tasks of a turn interleave, each is where its own steps have taken it |
| `ToolTasks.HandlerEndings` | agent/src/research_engine/loop.py:107-110 | the handler completes the noted text and finishes as failed with the exception's text |
| `ToolTasks.FailedEndsOnce` | agent/src/research_engine/loop.py:107-110 | a run failed by a tool task completes one message, the noted text, and finishes once, as failed with the exception's text, whatever the other tasks do |
| `ToolTasks.ProperExactly` | agent/src/research_engine/loop.py:430-446 | a tool turn goes well under every interleaving, and whatever its tools answer, exactly when it does not mix calls whose arguments parse with calls whose arguments raise |
| `ToolTasks.AbandonedCall` | agent/src/research_engine/loop.py:567-574 | two calls, the arguments of the second refused: the first tool is open when the run has ended, and its end comes after the end of the run |
| `ToolTasks.ImproperForever` | agent/src/research_engine/loop.py:430-446 | a run that has ended once but not properly does not come right, whatever is logged later |
| `Provider.WithoutCallsIsWhole` | agent/src/research_engine/llm/openai_compat.py:64-125 | a reply of the streaming provider that makes no tool call has streamed its whole content |
| `Provider.LastTurnAnswers` | agent/src/research_engine/loop.py:232-333 | so on this provider the message of a succeeded run is the streamed text of its last turn, after what was thrown away, when the calls the turn kept make no tool call |
| `RunLog.FinishEnds` | agent/src/research_engine/loop.py:544-549 | completing and finishing a run that goes on ends it, once |
| `WakeQueue.WakeBatch.Put` | backend/internal/service/subagent_wake.go:44-50 | a report takes the place of the one with its id, or comes last |
| `WakeQueue.Queue.Add` | backend/internal/service/subagent_wake.go:36-51 | only the batch of the conversation changes, by the report |
| `WakeQueue.Queue.Take` | backend/internal/service/subagent_wake.go:53-62 | the batch leaves the queue, and is handed out if it has a report |
| `WakeQueue.Queue.Restore` | backend/internal/service/subagent_wake.go:64-87 | a batch comes back in front of what was queued meanwhile |
| `WakeQueue.AddedIds` | backend/internal/service/subagent_wake.go:36-51 | adding a report adds its id and loses no other report |
| `WakeQueue.AddedDistinct` | backend/internal/service/subagent_wake.go:36-51 | ids in a batch stay pairwise distinct |
| `WakeQueue.MergedIds` | backend/internal/service/subagent_wake.go:64-87 | restoring yields exactly the union of the ids; the taken reports stay, the queued ones only under other ids |
| `WakeQueue.MergedDistinct` | backend/internal/service/subagent_wake.go:64-87 | restoring keeps ids pairwise distinct |
| `WakeQueue.OlderReportWins` | backend/internal/service/subagent_wake.go:79-85 | a newer report under the same id is displaced by the older one |
| `SlotSafety.OncePerRun` | backend/internal/repo/repo.go:117-137 | in a legal slot log a run takes a slot once and gives it up once, the same one, afterwards |
| `SlotSafety.TakeOk` | backend/internal/repo/repo.go:117-130 | a claim that succeeds keeps the protocol's invariant |
| `SlotSafety.FreeOk` | backend/internal/repo/repo.go:132-137 | clearing the slot for a finished run keeps it, and clears for a run that was never notified before |
| `SlotSafety.StepOk` | backend/internal/service/persist.go:17-63 | every step of every goroutine keeps the slot invariant |
| `SlotSafety.SlotChange` | backend/internal/repo/repo.go:117-137 | in every step of every history a slot stays, goes from empty to a main run that never held one, in a live conversation, or from its holder, whose end is journalled, to empty |
| `SlotSafety.SlotHistory` | backend/internal/service/subagent_wake.go:199-213 | over every history: one hold a run, never a subagent run, every start command names a run that took the slot, the cleared callback at most once a run |
| `StartCommands.PostLaunches` | backend/internal/service/conversation.go:271-341 | a post nobody interferes with writes exactly one start command and takes the slot exactly when the slot was free; otherwise it leaves a queued run, no command, and the slot as it was |
| `StartCommands.TakenIsCommanded` | backend/internal/service/subagent_wake.go:192-213 | over every history, with posts and wakes interleaved: a run that took a slot has its start command, or its goroutine is still on the way to writing it, or one of the steps on that way failed |
| `StartCommands.OneCommandARun` | backend/internal/service/subagent_wake.go:192-213 | over every history no run gets two start commands |
| `WakeConservation.StepKeeps` | backend/internal/service/subagent_wake.go:154-215 | every step hands on every accepted report of a live conversation and keeps batch ids distinct |
| `WakeConservation.DropKeeps` | backend/internal/service/subagent_wake.go:159-162 | dropping a queue loses reports of deleted conversations only |
| `WakeConservation.WakesConserved` | backend/internal/service/subagent_wake.go:36-215 | after every history each accepted report of a live conversation is queued, in the hands of an unfinished launch, or in a written start command, and every batch has distinct ids |
| `WakeLaunch.WakeLaunches` | backend/internal/service/subagent_wake.go:135-215 | an undisturbed wake, alone and with every step successful, launches one run with all that waits exactly when the slot is free, and otherwise waits with the rest |
| `WakeLaunch.WakeCanStrand` | backend/internal/service/subagent_wake.go:154-175 | a history exists after which a report waits, the slot is free and nothing is going on |
| `WakeAttention.StrandsExactly` | backend/internal/service/subagent_wake.go:144-175 | in every interleaving a step leaves a waiting report with a free slot unattended exactly when it fails a look, loses the callback of a cleared slot, or puts a batch back into a free slot, and nobody else is about to look |
| `WakeAttention.AttendedExactly` | backend/internal/service/subagent_wake.go:144-175 | over every history: waiting reports with a free slot are attended to at every moment if and only if no step strands any |
| `WakeAttention.CarefulIsAttended` | backend/internal/service/subagent_wake.go:144-175 | after any history in which no look fails, cleared slots get their callback and no batch is put back into a free slot, some goroutine is about to look at every waiting report |
| `WakeAttention.RestoreIntoFreeSlot` | backend/internal/service/subagent_wake.go:170-173 | a batch put back into a free slot waits with what was queued, attended to exactly if another goroutine is about to look |
| `Persist.Persist.Handle` | backend/internal/service/persist.go:17-63 | the handler's statements and callbacks are those of the specification its theorems are about |
| `Persist.HandledSettles` | backend/internal/service/persist.go:31-42 | every journalled announcement of a child has its child run, as far as the unique keys allow |
| `Persist.RedeliveryEffect` | backend/internal/service/persist.go:31-42 | delivering a journalled event again changes nothing, except exactly when it announces a child that does not exist |
| `Persist.AtLeastOnceIsExactlyOnce` | backend/internal/service/persist.go:17-63 | any delivery sequence leaves the database and callbacks of the sequence without redeliveries |
| `Persist.AnswerIsFirstCompletion` | backend/internal/service/apply.go:39-52 | a main run gets the content of its first journalled completion as its one answer, a subagent run none |
| `Persist.StatusIsOfEventsOnce` | backend/internal/service/apply.go:34-60 | after any delivery sequence the status of a run is what its events give it, in order, each counted once |
| `Persist.StatusExactly` | backend/internal/service/apply.go:34-60 | after any delivery sequence a run's status is what the last end among the events without redeliveries claims, "failed" for no claim, or else the one it had; and running if that is queued and a start came since |
| `Persist.StartTakesQueuedToRunning` | backend/internal/service/apply.go:35-38 | without an end, a queued run that got a start is running, and no other run changes its status |
| `Persist.LastEndDecides` | backend/internal/service/apply.go:53-60 | the last new end decides: its claim, or failed |
| `Persist.JournalKeepsFirst` | backend/internal/service/persist.go:31-42 | the journal keeps what it has, and of all that is delivered under a key the first |
| `Persist.NewRunIsChild` | backend/internal/service/persist.go:35-42 | a run row that comes up is a queued subagent run of the announcing run's conversation under the announced id |
| `Persist.AnnouncedChildExists` | backend/internal/service/persist.go:35-42 | a well-formed announcement by a known run has its row afterwards, unless an id was taken |
| `Persist.StatusNeverFalls` | backend/internal/service/apply.go:34-60 | between any two points of any delivery sequence the status never goes back, when the run's journalled end events claim final statuses or none |
| `Persist.FinalStatusChanges` | backend/internal/service/apply.go:53-60 | a final status changes exactly when a new end event of the run gives it a different one |
| `Persist.StatusGoesForward` | backend/internal/service/apply.go:34-60 | one event takes a status back exactly when it is a new end event that claims an earlier one |
| `Persist.StatusCanGoBack` | backend/internal/service/apply.go:53-60 | an end event that claims a running status takes a finished run back |
| `Persist.FinalStatusIsOverwritten` | backend/internal/service/apply.go:53-60 | it does change: a failure reported after a success |
| `Persist.CrashThenRedelivery` | backend/internal/service/persist.go:31-60 | redelivery makes up for a handler that failed at any point, the last one between the clearing of the slot and its callback, exactly when what was left would have changed nothing |
| `Persist.CrashLoses` | backend/internal/service/persist.go:43-60 | a failure before the answer is stored loses the answer, one after the slot is cleared loses the callback |
| `Persist.RedeliveryCreatesChild` | backend/internal/service/persist.go:35-42 | a redelivered announcement creates the child its first handling did not |
| `Persist.SweeperEffect` | backend/internal/service/sweeper.go:106-137 | for main and subagent runs, whatever was journalled since the number was read and whatever is delivered between the two events: the sweeper's message is lost when its number is taken, and its end fails the run, frees its slot and makes the callback exactly unless the number of the end is taken |
| `Persist.SweeperIsTooLate` | backend/internal/service/sweeper.go:106-137 | a run that published two more events meanwhile goes on |
| `Persist.SweeperEndsRun` | backend/internal/service/sweeper.go:106-137 | when no other event takes the number of the end, any run fails, a main run with the answer it had or an empty one, and without the slot, with the callback if it held it |
| `HandleRefinement.UninterruptedDelivery` | backend/internal/service/persist.go:17-63 | the steps of the interleaved protocol, undisturbed, do to the database what the sequential handler does, and make the callback when it does, for every event, also one that is ignored |
| `Supervisor.ClaimIsFresh` | agent/src/agent_service/subagents/supervisor.py:207-230 | an id that passed the checks under the lock was never accepted, and accepting it keeps the limits |
| `Supervisor.TaskStepKeeps` | agent/src/agent_service/subagents/supervisor.py:311-369 | no step of a job breaks the limits, and none reuses an id |
| `Supervisor.PublishingQuiets` | agent/src/agent_service/subagents/supervisor.py:463-489 | a job that publishes is gone, and one that timed out says so |
| `Supervisor.StepKeeps` | agent/src/agent_service/subagents/supervisor.py:181-264 | every interleaved step keeps the invariant, also while a spawn holds the lock over its read |
| `Supervisor.InFlightLimits` | agent/src/agent_service/subagents/supervisor.py:207-230 | over every history at most 21 jobs in flight a conversation, depth 1 or 2, keepalive on exactly while one is in flight |
| `Supervisor.AcceptedOnce` | agent/src/agent_service/subagents/supervisor.py:207-230 | over every history an accepted id is never accepted again |
| `Supervisor.PublishedOnce` | agent/src/agent_service/subagents/supervisor.py:463-489 | over every history a job publishes at most one wake |
| `Supervisor.CancelledIsSilent` | agent/src/agent_service/subagents/supervisor.py:259-264 | a job in flight when its conversation is cancelled never publishes |
| `Supervisor.WakeSaysLoopStatus` | agent/src/agent_service/subagents/supervisor.py:503-510 | over every history the wake of a job says how its loop ended, "failed" for any status but the three known, unless its time limit had struck before |
| `Supervisor.UndisturbedJobIsPublished` | agent/src/agent_service/subagents/supervisor.py:463-489 | over every history a job never silenced, timed out or cancelled whose loop has ended and that can be reached publishes exactly that status when it finishes |
| `Supervisor.TimedOutIsSaid` | agent/src/agent_service/subagents/supervisor.py:351-353 | over every history a job whose time limit struck says so, if it says anything |
| `Supervisor.CancelledTaskIsSilent` | agent/src/agent_service/subagents/supervisor.py:331-334 | over every history a job whose task was cancelled says nothing |
| `Supervisor.SpawnAccepts` | agent/src/agent_service/subagents/supervisor.py:190-230 | a spawn that finds room, an unused id and no spec file is accepted, one level deeper, and changes nothing else |
| `Supervisor.SpawnRunsThrough` | agent/src/agent_service/subagents/supervisor.py:190-369 | a spawn nobody interferes with is accepted, set up and driven, its wake says how its loop ended, and no job is left behind |
| `Supervisor.JobRuns` | agent/src/agent_service/subagents/supervisor.py:311-369 | an accepted job without disturbance publishes its loop's status, or "timed_out" if the limit struck, and leaves the table as it was, also when its setup fails |
| `Supervisor.SpawnBurns` | agent/src/agent_service/subagents/supervisor.py:214-222 | an existing spec file burns the id without a job, an unreadable one changes nothing |
| `SupervisorTables.Tables.BeginSpawn` | agent/src/agent_service/subagents/supervisor.py:190-213 | refines its step; depth, known id and full table are refused, and only a spawn that passes keeps the lock |
| `SupervisorTables.Tables.EndSpawn` | agent/src/agent_service/subagents/supervisor.py:214-230 | refines its step; a missing spec file accepts the job, an existing one burns the id, another read error changes nothing |
| `SupervisorTables.Tables.SetupFailed` | agent/src/agent_service/subagents/supervisor.py:232-254 | refines its step; a job whose files or announcement failed leaves the table |
| `SupervisorTables.Tables.EnsureKeepalive` | agent/src/agent_service/subagents/supervisor.py:279-288 | afterwards the conversation has a stop event that is not set |
| `SupervisorTables.Tables.CancelConversation` | agent/src/agent_service/subagents/supervisor.py:259-264 | refines its step; the loop silences every job in flight and nothing else |
| `SupervisorTables.Tables.TimeOut` | agent/src/agent_service/subagents/supervisor.py:351-353 | refines its step; the job is marked timed out and cancelled |
| `SupervisorTables.Tables.EndLoop` | agent/src/agent_service/subagents/supervisor.py:327-337 | refines its step; a silenced job is cancelled, else one that timed out says so, else it has the loop's own status, if it is one of the three known, or failed |
| `SupervisorTables.Tables.CancelTask` | agent/src/agent_service/subagents/supervisor.py:331-334 | refines its step; the job is silenced and ends as cancelled |
| `SupervisorTables.Tables.Release` | agent/src/agent_service/subagents/supervisor.py:491-500 | the job leaves the table and the last one sets the stop |
| `SupervisorTables.Tables.Finish` | agent/src/agent_service/subagents/supervisor.py:463-489 | refines its step; the job is released and its wake published exactly unless it was silenced or cannot be reached |
| `SupervisorTables.Tables.RowChanged` | agent/src/agent_service/subagents/supervisor.py:107-123 | the link: tables of which only one row differs from a state model that state with the row changed |
| `Glob.GlobToRe` | agent/src/agent_service/workspace/paths.py:83-102 | the scan with its index emits the pieces of the compiled pattern |
| `Glob.CompileJoin` | agent/src/agent_service/workspace/paths.py:83-102 | a pattern whose ** are whole segments compiles segment by segment |
| `Glob.SegmentThen` | agent/src/agent_service/workspace/paths.py:93-101 | the pieces of one segment match exactly one segment by the wildcard rules, whatever follows |
| `Glob.TokensMatchSegments` | agent/src/agent_service/workspace/paths.py:83-102 | translation correctness: a full match of the pieces is a segment-by-segment match, in which ** crosses no newline |
| `Glob.SlashedAt` | agent/src/agent_service/workspace/paths.py:76-77 | backslashes become slashes, and nothing else changes |
| `Glob.LStripDrops` | agent/src/agent_service/workspace/paths.py:76-77 | leading dots and slashes go, and nothing else |
| `Glob.GlobMatch` | agent/src/agent_service/workspace/paths.py:66-80 | escaping patterns are refused; otherwise the pieces have to match the path or its last segment, which for patterns whose ** are whole segments means segment by segment |
| `Glob.RefusedExactly` | agent/src/agent_service/workspace/paths.py:66-71 | a pattern is refused exactly when what is left without white space begins with a slash or a tilde or has a segment of two dots |
| `Hub.PublishedKeepsChan` | backend/internal/sse/hub.go:76-95 | a channel keeps having received an in-order selection of what was published on its topic |
| `Hub.SubscribedKeeps` | backend/internal/sse/hub.go:43-59 | a new subscription keeps the index, the counter and the limits |
| `Hub.CancelledKeeps` | backend/internal/sse/hub.go:60-73 | a cancel keeps them |
| `Hub.CancelTwice` | backend/internal/sse/hub.go:60-73 | a second cancel changes nothing |
| `Hub.SentIsTold` | backend/internal/sse/hub.go:76-95 | the two walks of a publish tell every open channel once, and never a closed one |
| `Hub.PublishTells` | backend/internal/sse/hub.go:76-95 | what a publish does to each channel: the event to subscribers of the run, a creation to those of the conversation on a start, if there is room, and nothing otherwise |
| `Hub.OnlyFullChannelsLose` | backend/internal/sse/hub.go:76-95 | a channel that never had a publish while it was full has received all that was published since it was opened |
| `Hub.SubscribeLimits` | backend/internal/sse/hub.go:43-59 | never more than 2000 open channels and 16 on a topic, and a subscription is possible exactly below both |
| `Hub.Hub.Subscribe` | backend/internal/sse/hub.go:43-59 | a channel comes out exactly below 2000 in all and 16 on the topic; a refusal changes nothing |
| `Hub.Hub.Cancel` | backend/internal/sse/hub.go:60-73 | the channel is closed and forgotten, and an empty key removed |
| `Hub.Hub.Publish` | backend/internal/sse/hub.go:76-95 | each subscriber gets the event unless its 64 places are full; starts are also announced on the conversation |
| `EndToEnd.MixReflected` | backend/internal/service/persist.go:17-63 | however the events of a run are mixed with others, the database says how far the run has come: under way, with its message, or ended |
| `EndToEnd.EndedRunIsRecorded` | backend/internal/service/persist.go:17-63 | the published events of a run that has ended once, in any mixture with others and even if tool calls went on after it, leave it with the engine's status and message, its slot empty and the callback made exactly if it held the slot |
| `EndToEnd.EndedRunIsRecordedOnce` | backend/internal/service/persist.go:17-63 | the same under any redelivery |
| `EndToEnd.EndedRunGoesForward` | backend/internal/service/apply.go:34-60 | while the events of such a run are delivered, in whatever repetition, its status never goes back |
| `EndToEnd.EndedRunIsShown` | frontend/src/hooks/useRunStream.ts:17-63 | a client that has seen a run that ended properly shows its status and message, and every tool as done |
| `EndToEnd.StreamIsShown` | frontend/src/hooks/useRunStream.ts:17-63 | while a run goes on, a client shows the text and the reasoning the engine has streamed so far |
| `EndToEnd.AbandonedIsShownRunning` | frontend/src/hooks/useRunStream.ts:17-63 | after a mixed tool turn a client can show a failed run with a tool still running |
| `StreamAssembly.TableByIndex` | agent/src/research_engine/llm/openai_compat.py:85-98 | the record of an index depends on that index's fragments alone |
| `StreamAssembly.CallsByIndex` | agent/src/research_engine/llm/openai_compat.py:112-119 | one call an index, in strictly ascending index order, each with the joined names and arguments of its own fragments, their last id or the one made of the index, and an empty object for no arguments |
| `StreamAssembly.StreamParts` | agent/src/research_engine/llm/openai_compat.py:78-108 | text and reasoning are those of the chunks with a choice, in order |
| `StreamAssembly.FragmentAt` | agent/src/research_engine/llm/openai_compat.py:85-98 | every tool fragment of every chunk is among the fragments the calls are made of |
| `StreamAssembly.LastWords` | agent/src/research_engine/llm/openai_compat.py:70-84 | the finish reason is the last one given, the usage the last one reported |
| `StreamAssembly.InterleavingIrrelevant` | agent/src/research_engine/llm/openai_compat.py:85-119 | how fragments of different indices interleave does not matter |
| `StreamAssembly.LiveTextIsPrefix` | agent/src/research_engine/llm/openai_compat.py:99-103 | the text passed on live is a prefix of the content, and all of it when no tool fragment came |
| `StreamAssembly.LiveTextEnds` | agent/src/research_engine/llm/openai_compat.py:82-103 | the first chunk with a tool fragment ends the live text, its own content included |
| `StreamAssembly.Complete` | agent/src/research_engine/llm/openai_compat.py:64-125 | the chunk loop returns content, calls, finish reason, usage and reasoning of the chunks before cancellation, and passes on live a prefix of the content, all of it when it returns no call |
| `Readers.ResentAreDropped` | frontend/src/hooks/useRunStream.ts:90-98 | with re-sent events mixed in anywhere, the guard lets each journal event through once and in order |
| `Readers.FreshIncreasing` | frontend/src/hooks/useRunStream.ts:90-98 | what passes the guard has strictly increasing numbers |
| `Readers.ShowsWhatStreamed` | frontend/src/hooks/useRunStream.ts:24-27 | before a message is complete the text shown is what was streamed, and the reasoning shown is always that |
| `Readers.ShowsTheMessage` | frontend/src/hooks/useRunStream.ts:26-51 | once a message is complete the text shown is that message, and what streams after it |
| `Readers.ShowsTheStatus` | frontend/src/hooks/useRunStream.ts:19-57 | the status shown is that of the last event that has one |
| `Readers.ShowsTheError` | frontend/src/hooks/useRunStream.ts:52-59 | the error shown is the last one reported, by the end of the run or on the way |
| `Readers.ShowsTheTools` | frontend/src/hooks/useRunStream.ts:28-37 | a started tool with an id is shown, under that id once only |
| `Readers.EndIsShown` | frontend/src/hooks/useRunStream.ts:39-48 | the end of a tool shows on that tool alone |
| `Readers.StreamRun` | backend/internal/api/handlers.go:262-313 | everything sent has strictly increasing numbers above the client's, the replay first, nothing live after the end of the run |
| `Readers.ReplayIsTheRest` | backend/internal/api/handlers.go:262-282 | the replay has exactly the journalled events above the client's number |
| `Readers.LiveSendsAll` | backend/internal/api/handlers.go:289-313 | a request that lasts, on a channel that stays open, sends every new event up to the end of the run |
| `Readers.NothingAfterTheEnd` | backend/internal/api/handlers.go:291-303 | nothing is sent after the request or the channel has ended |
| `Readers.EndIsLast` | backend/internal/api/handlers.go:309-311 | nothing live is sent after an end of the run |
| `Readers.Client.ApplyAll` | frontend/src/hooks/useRunStream.ts:90-98 | whatever arrives, the state is the plain fold over what passes the guard |
| `Readers.Client.LoadJournal` | frontend/src/hooks/useRunStream.ts:102-114 | the pages load a prefix of the growing journal, each event once, up to the page limit; a request that fails, also the first, ends the loading |
| `Readers.Client.Follow` | frontend/src/hooks/useRunStream.ts:100-142 | after journal pages, however many came through, and stream the state is the plain fold over strictly increasing events: the whole journal, then what came live |
| `Trace.CloseRecord` | frontend/src/lib/trace.ts:54-62 | closing the one indexed record is closing every record with that id |
| `Trace.TraceFromEvents` | frontend/src/lib/trace.ts:31-68 | for every list of events the indexed trace has the reasoning and tools of the live fold |
| `Decimal.Itoa` | backend/internal/service/auth.go:183-203 | every 64-bit number prints within twenty bytes; the least one prints without digits |
| `Decimal.ParseSubject` | backend/internal/service/auth.go:132-141 | the digit loop gives the wrapped value of the digits and refuses anything else |
| `Decimal.IdRoundTrip` | backend/internal/service/auth.go:132-203 | printing and reading back gives the number exactly when it is not negative |

## Left out

- Engine.Run.RunUncapped: a run without a turn cap (`max_turns` absent, as for subagents) need not end, so it is watched for a number of turns.
- Engine.Run.Invoke: the after-result hook is merged into the tool's answer, parsed arguments are not on the model's log, and the cancellation of a coroutine itself is not modelled.
- WakeLaunch.WakeLaunches: one goroutine alone, with every step successful; what interleavings and failures do to a waiting report is said in `WakeAttention.dfy`.
- ToolTasks: every interleaving of the tasks of a turn is allowed, also those an event loop that starts tasks in order would not choose; the failing ones given are such that it would.
- Engine.Run.LogicalAssistant: the text claims need each reply it keeps to stream its content wholly or not at all; for replies that stream part of their content the answer, its mark and the end of the run are exact all the same (`Engine.Run.SucceedsExactly`), but not where their parts stand among the streamed text.
- Engine.Run.RunLoop: of a run that ends as cancelled, the message that goes with the end is fixed only where the reply itself was cancelled.
- EndToEnd.EndedRunIsShown: arguments of tool calls are not on the model's log; the state it starts from is any without tools, such as the one after the start of the run.
- Compact.ContextPacker.Pack: the text of the summary, the memory file and the source catalog are one arbitrary text or failure, and the packer always has an emitter.
- Messages: an absent content is the empty string, and a message carries only role, content, calls and call id.
- Completion: lower-casing is exact on texts whose lower case is ASCII, which is all the sets of reasons contain.
- WakeConservation.WakesConserved: a restart of the service loses the in-memory queue and is not a step.
- Store.ChildOf: text lengths are numbers of characters where the service counts bytes.
- Protocol: tenant and user checks, history and attachment rows, and timestamps are outside; a failed check is a failed statement. Run ids are fresh or the creation fails.
- Persist.Persist.Handle: a run's error message and last event time, and the conversation's touch time, are not modelled.
- Persist.AtLeastOnceIsExactlyOnce: pruning of the journal is not modelled, and a child announcement delivered under a journalled number must be that announcement.
- SupervisorTables.Tables: jobs are values in the table, not objects shared with their coroutines; descriptions, limits in seconds, files and reports are not modelled. The checks on description, time limit, id syntax and workspace come before the tables and change nothing.
- Glob.GlobMatch: patterns in which ** is part of a longer segment are compiled as in the source, but have no segment meaning.
- Hub.Hub.Publish: channel objects are entries of a table under fresh numbers; the order in which subscribers are visited is arbitrary.
- Readers.Client.Follow: rendering, timers and reconnection delays are outside; a reconnection delivers events again, which `Readers.ResentAreDropped` covers.
- StreamAssembly.Complete: always has a sink for live text and reasoning, which come back as results; request parameters are outside.
- Completeness of message paging and gap-freedom of live streams are not claimed: the paging cursor skips a row and full channels drop events.
- Kafka, MySQL, Redis, object storage, sandboxes, HTTP fetch and search, JWT, password hashing, PDF and DOCX extraction and tracing are foreign libraries; only the atomic effects they stand for appear.
- Pages and styles of the client, prompts, title clipping, overflow texts, upload and path guards, and the source ledger would add only easy facts.
