# Verified model of the agent loop, the agent, the proxy stream and the transcript packer

This project models four pieces of the repository and proves what they promise, for all inputs, all runs and all
schedules. Everything here is Dafny; `dafny verify dfyconfig.toml` checks the whole of it.

**The agent loop** (`packages/agent/src/agent-loop.ts`). A run is described by the log of everything its surroundings
can see: events emitted, provider calls with the transcript handed out, tool executions, hook consultations, and
polls of the two queues. The surroundings are a finite script: for every turn the provider's stream and final message,
for every tool call the answers of validation, hooks and tool, the reports the tool makes before it settles, and the
abort flag where it is read, a schedule for the concurrent phase, and what the polls find. A script that is used up cuts
the observation off, so the prefixes of the logs are exactly the finite pieces of runs, those that never end included.
The methods (`RunLoop`, `StreamAssistantResponse`, `ExecuteToolCalls` and so on) change the transcript, the recorder and
the state of the race in place, with the loops of the source, and are proved equal to functions of the script; the
theorems are about those functions.

The centre of the proof is `Protocol`: an observer, written without the loop, that sees one interaction at a time and
gives up at the first one out of line. `Runs.RunKeepsProtocol` shows that it accepts every run, through both
executors and every schedule. From acceptance alone follow the agreement of the agent's transcript with the loop's
private one, the trace grammar, the tool lifecycle, the shape of the transcripts that providers see, the conservation of
messages and the bound on provider calls. `Scheduling` shows, without the observer, that the concurrent executor refines
the sequential one, and `Determinism` lifts this to whole runs. `Turns` finds the turns and tool batches of a run in its
log, so that what holds of every batch holds at its place in every run; `Hooks`, `Failures`, `Aborts`, `CallOutcomes`
and `Succession` build on it. The last two tell from the script alone what becomes of each call and of each turn: what is
executed, what it ends with, what is handed to whom, and what comes next.

**The agent** (`packages/agent/src/agent.ts`). The queues and the agent are classes. `Agent.Act` is the same agent as a
machine over everything that can happen to it: calls by the application at any moment, events of the loop, failures at
any point, listeners that throw while a failure is handled, and events from tool calls that a failed run left running.
`AgentRuns` and `QueueRuns` put the loop and the agent together.

**The proxy stream** (`packages/agent/src/proxy.ts`). A line framer over chunks, a reducer that rebuilds a message in
place, and the event stream to the reader. `FromServerToReader` is the round trip over all of it, and `ReaderView` what
the reader is handed on the way.

**The transcript packer** (`scripts/session-transcripts.ts`). The packing loop, shown to lose nothing, to respect the
limit, to bound the number of files and to need the fewest.

Assumptions are `requires` clauses. `Runs.Keeps` collects those on the surroundings: the provider sends `start` at most
once (`packages/ai/src/types.ts:350-357`); for statements about the mirrored transcript, `prepareNextTurn` leaves the
context in place; for statements that every call has its result, nobody aborts. That they can be met together is shown by
concrete runs: `SecondHookIsStale`, `ARaceLeavesOneRunning` and `ARealRunLosesTheLastWord` apply the theorems on runs,
hooks and failures to them.

## What turned out otherwise than documented or expected

- A stream that sends `start` twice leaves a stale partial message in the transcript; `StreamingIsOneAppend` and
  `ProxiedTurnIsOneAppend` hold exactly for streams that do not.
- The agent's transcript is not at all times the one the loop hands out. `beforeToolCall` and `afterToolCall` are handed
  a transcript without the results of the turn that have been shown already (`HooksMayLag`): in a sequential batch they
  lag from the second call on (`SequentialHooksLag`, `SecondHookIsStale`), in a concurrent one never
  (`ConcurrentHooksAgree`).
- `packages/agent/src/agent.ts:502-508` says that no loop event follows `agent_end`. That holds of a failed run, however
  things go on, if and only if it leaves no tool call running (`LastWordInRun`). It can leave one running only within a
  race (`LeftOnlyByRaces`), and there it does happen (`ARaceLeavesOneRunning`, `ARealRunLosesTheLastWord`). `agent_end`
  is sent once exactly if the failure was not raised while the loop's own `agent_end` was handled (`FailedAgentRun`).
- A run that fails loses the messages it has taken from the queues, or was prompted with, and not yet injected, and no
  others (`QueuesLoseOnlyTaken`). It loses none exactly if, since the last poll that was answered, at least as many
  messages had been completed as it had announced. It happens at the very start of a run: `AQueuedMessageIsLost`.
- A run that fails between an assistant message and the last result of its calls, and also one that returns with a failed
  message that has calls, leaves calls without results in the transcript, which the next prompt hands out again;
  `PairedBehindFailure` and `PairedBehindReturn` say exactly when not, and `AFailureLeavesCallsOpen` shows it happen.
- `reset` during a run ends streaming but not the run (`ResetOnlyWhenIdle`).
- A proxied response that ends without a final event, or whose final event is not followed by a line feed, closes the
  event stream without ever producing its result (`ResultNeedsFinalEvent`, `TailIsNeverRead`).
- The message handed out at the final event is still written to. Whatever fails between this event and the end of the
  response, an abort, the connection, or a line that is refused, turns a finished message into a failed one in its
  reader's hands, and later events still change it (`LateFailureRewritesTheResult`, `LaterLinesRewriteTheResult`).
  `OneLaterLineRewritesTheResult` says exactly which single events do not.
- A proxied message loses thought signatures, the redacted mark, the response model, the response id and the diagnostics,
  and it is attributed to the model requested. `ArrivesIntact` says exactly when nothing is lost; an ordinary reply with
  a response id is not received as it was sent (`AResponseIdIsLost`).
- A tool-call delta behind the end of its block continues the text `undefined` (`ADeltaBehindTheEnd`). The text parsed is
  what was sent exactly if no delta follows an end, or if what was sent before it spells `undefined`
  (`JsonIsWhatWasSent`).
- The packer's second place for writing pending content is never reached (`Packer.SplitIntoFiles`).

## Model

| member | source | states |
|---|---|---|
| Streaming.StreamAssistantResponse | packages/agent/src/agent-loop.ts:275-368 | the method leaves the transcript and the trace that the stream determines: the partial slot is pushed by `start`, overwritten by each update, and finally replaced by the result, or the result is pushed if there was no `start`; updates before a `start` are not shown |
| Streaming.StreamingIsOneAppend | packages/agent/src/agent-loop.ts:310-367 | streaming is one append of the final message to an otherwise unchanged transcript, if and only if `start` comes at most once |
| Streaming.OpenSlotIsReplaced | packages/agent/src/agent-loop.ts:315-335 | once a partial message is in place, only the last slot is rewritten, and every further `start` adds one entry |
| Streaming.StreamIsShown | packages/agent/src/agent-loop.ts:310-367 | every stream, legal or not: one message event for each provider event from the first `start` on, in order and with its partial message, and the final message at the end; without a `start`, the final message alone |
| Tools.ExecutePreparedToolCall | packages/agent/src/agent-loop.ts:628-669 | the tool is executed once, and exactly the updates reported before its promise settles are emitted |
| Tools.PrepareToolCall | packages/agent/src/agent-loop.ts:562-626 | preflight: `beforeToolCall` is consulted, with the transcript of the loop, exactly if the tool is there and its arguments are valid; a missing tool, a throw, an abort, and a block each give an error result, in this order |
| Tools.FinalizeExecutedToolCall | packages/agent/src/agent-loop.ts:671-714 | `afterToolCall` is consulted with the transcript of the loop and may override each part of the outcome; if it throws, the outcome is its error |
| Tools.ExecuteOneSequentially | packages/agent/src/agent-loop.ts:406-438 | one call: start, preflight, execution, end and result message, with the outcome that preflight, tool and hooks determine |
| Tools.ExecuteToolCallsSequential | packages/agent/src/agent-loop.ts:395-449 | the calls one after the other, up to and including the one behind which an abort is seen, with one result message each, in source order |
| Parallel.PreflightOne | packages/agent/src/agent-loop.ts:461-482 | a call is announced before its preflight; a refused one ends at once and becomes a ready outcome, another becomes a task |
| Parallel.Preflight | packages/agent/src/agent-loop.ts:461-500 | the entries of all calls reached before an abort, in order, with their announcements and rejections |
| Parallel.StartAll | packages/agent/src/agent-loop.ts:502-504 | ready outcomes are done from the start and tasks wait |
| Parallel.Schedule | packages/agent/src/agent-loop.ts:484-496 | one step of a task: start, the next of its own reports (dropped once its promise has settled), settling, `afterToolCall`, or the end event |
| Parallel.RunRace | packages/agent/src/agent-loop.ts:502-504 | the race under any scheduler, one enabled step at a time |
| Parallel.Collect | packages/agent/src/agent-loop.ts:502-504 | the outcomes come back in source order, whatever order the tasks ended in |
| Parallel.EmitResults | packages/agent/src/agent-loop.ts:505-510 | one result message per outcome, shown and returned in source order |
| Parallel.ExecuteToolCallsParallel | packages/agent/src/agent-loop.ts:451-516 | preflight in order, race, then results in source order |
| Parallel.ExecuteToolCalls | packages/agent/src/agent-loop.ts:373-388 | one sequential tool, or the configuration, makes the whole batch sequential; the batch terminates if it has outcomes and all of them ask for it |
| Scheduling.ParallelRefinesSequential | packages/agent/src/agent-loop.ts:395-516 | every schedule that completes yields the outcomes of the sequential executor on the same calls, the same message events in the same order, and exactly the same interactions up to order, every progress update included |
| Scheduling.EachCallKeepsItsOrder | packages/agent/src/agent-loop.ts:395-516 | with distinct ids, everything about each call, updates included, comes in the order of the sequential executor, in every schedule that completes |
| Scheduling.TasksKeepOrder | packages/agent/src/agent-loop.ts:484-496 | at every point of every schedule, also with repeated ids, what has been seen of a task followed by what it has yet to show is what it had to show at first |
| Scheduling.RaceConservesWork | packages/agent/src/agent-loop.ts:502-504 | at any moment of any schedule, the executions and ends seen and those still to come are together the work of the batch |
| Scheduling.RaceLength | packages/agent/src/agent-loop.ts:502-504 | the race is over exactly when every task has been started, has made its reports, has settled, been reviewed and ended |
| Scheduling.NoDeadlock | packages/agent/src/agent-loop.ts:502-504 | until all is done some task can be advanced |
| Scheduling.SequentialBatchesDoNotOverlap | packages/agent/src/agent-loop.ts:373-443 | if the configuration is sequential, or the first tool of some called name asks for it, at most one call is in flight at every point of the batch |
| Scheduling.TasksStartInOneGo | packages/agent/src/agent-loop.ts:502-504 | in a concurrent batch, under every schedule, all tasks are started before the first of them settles |
| Scheduling.TasksAreIndependent | packages/agent/src/agent-loop.ts:502-504 | once all are started, each task can be advanced to its end whatever the state of the others |
| Scheduling.ReportsComeAnyTime | packages/agent/src/agent-loop.ts:636-660 | a running tool may make its next report at any time, whatever the others do; a report behind its settling shows nothing and changes nothing |
| Scheduling.PreflightComesFirst | packages/agent/src/agent-loop.ts:461-504 | otherwise the batch begins with the whole preflight, every announcement and every rejection, and from there on only tasks start, report and end, in every schedule |
| Discipline.SequentialRunsDoNotOverlap | packages/agent/src/agent-loop.ts:155-449 | in sequential mode at most one call is in flight at every point of every run, and none when it is over or waits for the provider |
| Turns.TurnIsInRun | packages/agent/src/agent-loop.ts:170-266 | every turn taken has its log at its place in the log of the run |
| Turns.SequentialTurnsDoNotOverlap | packages/agent/src/agent-loop.ts:373-443 | in every run, if the configuration or a tool called in the turn is sequential, at most one call is in flight at every point of its batch |
| Turns.ConcurrentTurnsPreflightFirst | packages/agent/src/agent-loop.ts:461-504 | in every run, any other turn's batch begins with its whole preflight, and then only tasks start, report and end |
| CallOutcomes.PassesOrRefused | packages/agent/src/agent-loop.ts:562-626 | every call passes its preflight or is refused for exactly one first reason: no tool of its name, invalid arguments, a hook that throws, an abort, a block |
| CallOutcomes.OutcomesAreDue | packages/agent/src/agent-loop.ts:395-516 | in a complete batch, in both executors and under every schedule: a refused call ends with an error that says the first reason; another with what the tool came to, each part replaced that `afterToolCall` gives, or with the error of tool or hook; and the transcript gets one result message for each call, in source order, with just this content, these details and this error mark |
| CallOutcomes.ExecutedAsDue | packages/agent/src/agent-loop.ts:395-516 | the executions of a batch are, in source order, the first of those calls that pass, with their validated arguments; all of them if it is complete |
| CallOutcomes.ExecutedIffPasses | packages/agent/src/agent-loop.ts:562-626 | with distinct ids, in a complete batch: a call is executed, and then with its validated arguments, if and only if it is reached, its tool is there, its arguments are valid, the hook is absent or lets it pass, and no abort is seen |
| CallOutcomes.EveryCallTells | packages/agent/src/agent-loop.ts:395-714 | with distinct ids, in both executors and under every schedule: everything seen of a call, in order: announced; shown to `beforeToolCall` exactly if it is asked; executed exactly if it passes, with exactly the reports made before it settles; shown to `afterToolCall` exactly if there is one; and ended with the outcome it is due |
| CallOutcomes.EveryRunTellsItsCalls | packages/agent/src/agent-loop.ts:170-714 | the same for every call of every complete batch of every run, at its place in the log |
| CallOutcomes.ReachedUntilAbort | packages/agent/src/agent-loop.ts:436-443 | the calls taken up are those before the first behind which an abort is seen, and it |
| Succession.RunsBegin | packages/agent/src/agent-loop.ts:95-190 | every run begins with its prompts, the first steering poll, and a provider call that is handed the given transcript, the prompts, and what the poll has found; its first turn has the given tools |
| Succession.TurnsFollow | packages/agent/src/agent-loop.ts:192-268 | in every run, for every turn that has not failed and is not cut off: `prepareNextTurn` is handed the context as it is, and `shouldStopAfterTurn` the one handed back, if there is one; the next provider call is handed that one and what the poll in between has found, and the next turn has its tools; the run is over exactly if it is told to stop, or if no result asks to go on and neither poll finds anything, and then ends with that context |
| Succession.OtherTurnsAreLast | packages/agent/src/agent-loop.ts:196-200 | a turn whose message failed or was aborted ends the run with `turn_end` without results and `agent_end`; a turn cut off is the last one seen |
| Succession.StreamsAreShown | packages/agent/src/agent-loop.ts:275-368 | in every run, behind each provider call its stream is shown, one message event for each provider event from the first `start` on |
| Aborts.BatchShows | packages/agent/src/agent-loop.ts:395-516 | in both executors and under every schedule: the calls announced are those reached, in source order, and those executed are, in source order, the first of those that got through their preflight, all of them when the batch is complete |
| Aborts.AbortStopsTheBatch | packages/agent/src/agent-loop.ts:395-516 | if the flag stays up: the call during which the abort is seen is the last one announced, and only calls already through their preflight are executed, all of them when the batch is complete |
| Aborts.AbortedFromTheStart | packages/agent/src/agent-loop.ts:591-612 | a batch that begins with the flag up announces its first call and executes none |
| Aborts.AbortStopsTheRun | packages/agent/src/agent-loop.ts:170-266 | if the flag stays up over the run: behind the batch in which the abort is seen no tool is executed any more, however many turns are still taken |
| AgentLoop.AnnounceMessages | packages/agent/src/agent-loop.ts:111-114 | the prompts are shown one by one, in order |
| AgentLoop.InjectPending | packages/agent/src/agent-loop.ts:175-190 | the turn is announced unless it is the first, and the pending messages are shown and appended to both lists, in order |
| AgentLoop.TakeTurn | packages/agent/src/agent-loop.ts:174-254 | the body of the inner loop on the variables and the transcript in place, through the error exit, the tool batch, the hooks and the early stop |
| AgentLoop.EndTurn | packages/agent/src/agent-loop.ts:218-253 | `turn_end`, then `prepareNextTurn`, whose context replaces the current one, then `shouldStopAfterTurn`, then `agent_end` or the steering poll |
| AgentLoop.Round | packages/agent/src/agent-loop.ts:174-254 | one round of the inner loop takes one turn off what is still to come |
| AgentLoop.PollForFollowUps | packages/agent/src/agent-loop.ts:256-262 | follow-up messages become pending, otherwise the loop is left |
| AgentLoop.RunLoop | packages/agent/src/agent-loop.ts:155-269 | both nested loops: log, new messages and final context are those of the run that the script determines |
| AgentLoop.RunAgentLoop | packages/agent/src/agent-loop.ts:95-118 | a prompt run works on a copy of the transcript with the prompts appended and shown |
| AgentLoop.RunAgentLoopContinue | packages/agent/src/agent-loop.ts:120-143 | refused, without any effect, on an empty transcript and behind an assistant message; otherwise the run extends the very transcript it was given, unless a hook replaces it |
| Conformance.StreamAccepted | packages/agent/src/agent-loop.ts:310-367 | a legal stream shows one message start, only updates behind it, and one message end with the final message |
| Conformance.SequentialAccepted | packages/agent/src/agent-loop.ts:406-443 | the sequential executor keeps the protocol |
| Conformance.RaceAccepted | packages/agent/src/agent-loop.ts:484-504 | so does the race, under every schedule and at every point of it |
| Runs.ParallelAccepted | packages/agent/src/agent-loop.ts:451-516 | so does the concurrent executor, and it brings the observer to where the sequential one would |
| Runs.TurnAccepted | packages/agent/src/agent-loop.ts:174-254 | so does every turn, and the observer's transcript and new messages agree with the loop's variables |
| Runs.RunKeepsProtocol | packages/agent/src/agent-loop.ts:95-269 | every run is accepted by the observer, and the run is over exactly when the observer says so |
| AgentState.TranscriptGrowsByCompleted | packages/agent/src/agent.ts:509-536 | the reducer's transcript is the old one followed by the completed messages, and events never change the streaming flag |
| AgentState.ErrorIsLastReported | packages/agent/src/agent.ts:528-536 | the error shown is the last nonempty one that an ended turn has reported |
| AgentState.StreamingIsLastShown | packages/agent/src/agent.ts:509-536 | the message shown as streaming is the last one begun or updated and not yet ended, for any sequence of events |
| Guarantees.AlwaysMirrors | packages/agent/src/agent.ts:509-536 | the reducer's transcript and streaming slot are the observer's, after every piece of an accepted trace |
| Guarantees.ToolLifecycle | packages/agent/src/agent-loop.ts:451-516 | for the exact multisets of calls announced and in execution: only an announced one is shown to `beforeToolCall` or executed, only one in execution reports or is shown to `afterToolCall`, only one of both ends, and whatever else happens happens with none under way; the calls of the turn are those ended and those under way |
| Guarantees.EachCallOnce | packages/agent/src/agent-loop.ts:451-516 | with distinct ids per message, counted per turn: a call begins once, is executed at most once and before any report or `afterToolCall`, ends once, and a turn ends with all its calls ended |
| Guarantees.HooksLagByResults | packages/agent/src/agent-loop.ts:436-443 | what the hooks around a call are handed, and the results of the turn shown so far, make up the transcript |
| Guarantees.AlwaysPending | packages/agent/src/agent.ts:524-536 | with distinct ids per message, the pending set is the set of calls under way |
| Guarantees.AlwaysPendingAmong | packages/agent/src/agent.ts:524-536 | also with duplicate ids, the pending set holds only ids of calls under way, so it is empty when none is |
| Grammar.TraceGrammar | packages/agent/src/agent-loop.ts:109-268 | `agent_start` first and only there, turns bracketed and never nested, messages never overlapping and within turns, `agent_end` last and only there, behind at least one turn |
| Transcripts.LastIsNeverAssistant | packages/agent/src/agent-loop.ts:174-216 | no transcript handed to the provider ends in an assistant message, over any number of turns |
| Transcripts.OneAssistantMessagePerTurn | packages/agent/src/agent-loop.ts:192-218 | exactly one assistant message per turn |
| Transcripts.ResultsFollowCalls | packages/agent/src/agent-loop.ts:202-216 | each assistant message of the run is followed by exactly one result per call in source order with matching ids, or, if somebody aborts, by those of a nonempty prefix |
| Transcripts.WhenPaired | packages/agent/src/agent-loop.ts:192-216 | at whatever point a run stops, with a failure message behind it or not, its part of the transcript pairs calls with results if and only if the calls of the assistant message completed since the last provider call have been answered, or there is none |
| Accounting.MessagesAreConserved | packages/agent/src/agent-loop.ts:103-268 | new messages are the completed ones in order; messages injected are the prompts and everything drained |
| Accounting.NewMessagesFactor | packages/agent/src/agent-loop.ts:103-218 | new messages, wherever they are handed out, are turn by turn the messages injected, the assistant message, and the results its `turn_end` carries |
| Accounting.CallsAreBounded | packages/agent/src/agent-loop.ts:170-266 | provider calls are at most one more than the turns whose batch goes on and the messages drained |
| Theorems.MirrorAgreement | packages/agent/src/agent.ts:509-536 | for every run: whenever the loop hands its private transcript to the provider, `prepareNextTurn` or `shouldStopAfterTurn`, and when observation stops, the agent's transcript built from events is the same; there and at turn ends nothing is shown as streaming and no call as pending |
| Theorems.HooksMayLag | packages/agent/src/agent-loop.ts:582-590 | for every run: at `beforeToolCall` and `afterToolCall` the agent's transcript is the one handed out followed by the results of the turn shown so far, so they agree if and only if there are none; with distinct ids the call is pending |
| Hooks.ConcurrentHooksAgree | packages/agent/src/agent-loop.ts:461-504 | in every run, at every hook of a concurrent batch they agree |
| Hooks.SequentialHooksLag | packages/agent/src/agent-loop.ts:406-443 | in every run, at the hooks of call `j` of a sequential batch they differ by the results of the `j` calls before, so they agree if and only if it is the first call |
| Hooks.SecondHookIsStale | packages/agent/src/agent-loop.ts:202-216 | a run with two sequential calls in which the second hook is handed a transcript without the first result |
| Theorems.PendingCallsAreThoseUnderWay | packages/agent/src/agent.ts:524-536 | for every run with distinct ids per message, at every point: the pending set is the set of calls begun and not ended |
| Theorems.EveryRunIsWellFormed | packages/agent/src/agent-loop.ts:95-269 | the trace grammar and the tool lifecycle for every run at every point, once each with distinct ids, and the run is over exactly when `agent_end` is out |
| Theorems.EveryTurnHasOneReply | packages/agent/src/agent-loop.ts:192-218 | exactly one assistant message per turn, in every run in which nobody prompts or queues one |
| Theorems.ProviderCanAlwaysAnswer | packages/agent/src/agent-loop.ts:174-216 | no transcript handed to the provider ends in an assistant message, in every legally started run in which nobody prompts or queues one |
| Theorems.ProviderSeesSoundTranscripts | packages/agent/src/agent-loop.ts:174-216 | for every legal start, if users and queues write plain messages: each transcript handed out extends the given one and pairs calls with results |
| Theorems.RunsConserveMessages | packages/agent/src/agent-loop.ts:95-269 | for every run: new messages are the completed ones, the provider calls are bounded, and a run that is over has injected its prompts and all drained messages, once each and in order, and announces with `agent_end` its new messages, which factor turn by turn |
| Determinism.RunsAreDeterministic | packages/agent/src/agent-loop.ts:155-516 | two ended runs that differ only in scheduling and in the execution mode have the same outcome, final context and message events |
| Queues.PendingMessageQueue.Enqueue | packages/agent/src/agent.ts:126-128 | the message goes to the end |
| Queues.PendingMessageQueue.HasItems | packages/agent/src/agent.ts:130-132 | whether the queue is not empty |
| Queues.PendingMessageQueue.Drain | packages/agent/src/agent.ts:134-147 | what is handed out and what remains are the queue as it was; in mode `all` nothing remains, in mode `one-at-a-time` at most one message is handed out; something is, if there is anything |
| Queues.PendingMessageQueue.Clear | packages/agent/src/agent.ts:149-151 | the queue is empty and keeps its mode |
| Queues.QueueConserves | packages/agent/src/agent.ts:118-152 | over any interleaving of enqueues, drains and mode changes, everything ever queued is everything handed out followed by what remains, in order |
| Queues.DrainsByMode | packages/agent/src/agent.ts:118-152 | over any history: a drain in mode `all` hands out everything queued and not yet handed out, in order; one in mode `one-at-a-time` the first message of that and no other |
| Queues.OneEach | packages/agent/src/agent.ts:134-147 | as long as the mode stays `one-at-a-time`, no drain hands out more than one message |
| Agent.Agent.Steer | packages/agent/src/agent.ts:264-266 | goes to the end of the steering queue, and changes nothing else |
| Agent.Agent.FollowUp | packages/agent/src/agent.ts:269-271 | goes to the end of the follow-up queue, and changes nothing else |
| Agent.Agent.Abort | packages/agent/src/agent.ts:300-302 | raises the abort flag of the active run, if there is one, and changes nothing else |
| Agent.Agent.Reset | packages/agent/src/agent.ts:314-322 | clears transcript, runtime state and both queues, but not the active run |
| Agent.Agent.Prompt | packages/agent/src/agent.ts:327-335 | refused while a run is active, otherwise begins one with the prompts |
| Agent.Agent.Continue | packages/agent/src/agent.ts:338-365 | refused while a run is active and on an empty transcript; behind an assistant message it prompts with what it drains from the steering queue, or else from the follow-up queue, or is refused; otherwise it continues |
| Agent.Agent.BeginRun | packages/agent/src/agent.ts:456-465 | a run is active and streaming, with no message shown and no error |
| Agent.Agent.FinishRun | packages/agent/src/agent.ts:494-500 | no run is active, and no trace of one is left |
| Agent.Agent.ProcessEvents | packages/agent/src/agent.ts:509-556 | the reducer takes the event first; listeners get it only within a run, and outside of one the method fails afterwards |
| Agent.Agent.HandleRunFailure | packages/agent/src/agent.ts:476-492 | the events of a failed run are processed in order, all four or those up to the one at which a listener throws |
| Agent.Agent.RunWithLifecycle | packages/agent/src/agent.ts:451-474 | a whole run with everything that happens meanwhile, calls of the application, events and polls of the loop and stray events, and with its end: it returns, or throws and the failure is handled, listeners throwing or not; in any case it is finished |
| Agent.Agent.Perform | packages/agent/src/agent.ts:264-365 | whatever happens to an agent short of the end of a run is the one step that the machine takes |
| Lifecycle.LifecycleIsSafe | packages/agent/src/agent.ts:327-365 | over every history of calls, events, failures and stray events, streaming is on exactly while a run is active, and an agent without one shows no message and no pending call |
| Lifecycle.ContinueIsRefused | packages/agent/src/agent.ts:338-365 | `continue` is refused exactly during a run, on an empty transcript, and behind an assistant message with nothing queued, and then changes nothing; it skips the first poll exactly if it prompts with steering messages |
| Lifecycle.ContinueTakesByMode | packages/agent/src/agent.ts:346-358 | behind an assistant message it takes all that is queued, or in mode `one-at-a-time` the first message; follow-ups only if nothing is queued for steering |
| Lifecycle.NothingIsInTheWay | packages/agent/src/agent.ts:264-365 | the application may call at any time, but reset only an idle agent; a run may go on, return or throw, and a call left running report, at any time |
| Lifecycle.ResetOnlyWhenIdle | packages/agent/src/agent.ts:314-322 | `reset` keeps the agent consistent if and only if no run is active |
| Lifecycle.SuccessfulRun | packages/agent/src/agent.ts:451-474 | a run that returns leaves an idle agent with the old transcript and all messages completed, whatever is called meanwhile |
| Lifecycle.FailedRun | packages/agent/src/agent.ts:476-500 | so does one that throws at any point, with one failure message at the end: of the model in use, with the stop reason `aborted` if the run had been aborted and `error` otherwise, and with the error, which is also shown in the state; with no call left running, the listeners hear the start and the end of this message, a `turn_end` and an `agent_end` with it, last |
| Lifecycle.StrayEventsAreHarmlessWhenIdle | packages/agent/src/agent.ts:524-552 | whatever the calls left running report to an idle agent, as often and in whichever order: its state stays as it is and its listeners hear nothing |
| Lifecycle.StraysEndOnce | packages/agent/src/agent.ts:467-556 | over every history, the calls left running that have ended and those still running are together all that failed runs have left |
| AgentRuns.CompletedAgentRun | packages/agent/src/agent.ts:386-412 | `prompt` or `continue` with a run of the loop that returns: the agent is idle, its transcript is the loop's and the old one with the run's new messages, the listeners have heard the run's events, and the error shown is the last one that this run has reported |
| AgentRuns.EndIsAnnouncedOnce | packages/agent/src/agent-loop.ts:198-268 | a piece of a run holds one `agent_end` if it is all of a run that is over, and none otherwise |
| AgentRuns.FailedAgentRun | packages/agent/src/agent.ts:467-500 | with a run that throws behind any piece of its log, also when an earlier one has left calls running: idle again, and the transcript is the old one, the messages completed and one failure message; outside races the run leaves no call running; with none left by it or an earlier one, `agent_end` is heard last, and only once if and only if the failure was not raised while `agent_end` was handled |
| AgentRuns.PairedBehindFailure | packages/agent/src/agent.ts:467-492 | if users and queues write plain messages: behind a run that fails anywhere, the messages it has added to the transcript are paired, calls with results, if and only if the calls of the assistant message completed since the last provider call had been answered where it failed |
| AgentRuns.PairedBehindReturn | packages/agent/src/agent-loop.ts:192-216 | the same behind a run that returns; if it was over, if and only if its last assistant message has not failed or has no calls |
| AgentRuns.AFailureLeavesCallsOpen | packages/agent/src/agent.ts:467-492 | a prompt to an agent at rest, answered with two calls, and a listener that refuses the end of the assistant message: the transcript has two calls without a result |
| Failures.LeftOnlyByRaces | packages/agent/src/agent-loop.ts:484-504 | in every run, whatever fails and wherever: no call is left running, unless the failure comes within a concurrent batch and behind its preflight |
| Failures.NothingLeftInSequence | packages/agent/src/agent-loop.ts:406-443 | in every run, a failure within a sequential batch leaves nothing running |
| Failures.NothingLeftInSequentialMode | packages/agent/src/agent-loop.ts:155-449 | in sequential mode no failure, at any point of any run, leaves a call running |
| Failures.ARaceLeavesOneRunning | packages/agent/src/agent-loop.ts:502-504 | a run with two concurrent calls in which a listener refuses the end of the first one while the second is running |
| AgentRuns.LastWordIffNoneLeft | packages/agent/src/agent.ts:476-500 | in every continuation of a failure the final `agent_end` is the last event heard, if and only if no call is left running |
| AgentRuns.LastWordInRun | packages/agent/src/agent.ts:476-500 | the same for every run of the loop and every point at which it fails, calls left running by earlier runs included |
| AgentRuns.ARealRunLosesTheLastWord | packages/agent/src/agent.ts:467-500 | a prompt to an agent at rest, for which it is not |
| AgentRuns.AStrayResultMayBeHeardLast | packages/agent/src/agent.ts:502-556 | any call left running may be heard behind the final `agent_end` |
| QueueRuns.QueuesDuringRun | packages/agent/src/agent.ts:440-447 | during a run the queues go through the enqueues, drains and mode changes meant for them and nothing else |
| QueueRuns.InjectedSoFar | packages/agent/src/agent-loop.ts:167-190 | at every point of every run the messages injected are the first of those announced, and are completed; the others are what is left of the last announcement, the answer to the last poll or else the prompts, behind as many messages as have been completed since; so none is left if and only if at least as many have been completed since as it announced, as from the provider call of a turn to its end |
| QueueRuns.QueuesWhileRunning | packages/agent/src/agent.ts:338-447 | at every point of a run, before its first poll too, the messages injected, those taken and not yet injected, and those still queued are together the prompts given, those queued before and those enqueued meanwhile |
| QueueRuns.QueuesLoseOnlyTaken | packages/agent/src/agent.ts:338-500 | from the call of `prompt` or `continue` to the idle agent behind a run that fails anywhere, with whatever is enqueued before, during and behind the failure: exactly the messages taken and not yet injected are lost and none is doubled; none at all is lost if and only if at least as many messages had been completed since the last poll, or else since the beginning, as it had announced |
| QueueRuns.AQueuedMessageIsLost | packages/agent/src/agent.ts:346-351 | `continue` behind an assistant message with one message queued for steering, in every run that it starts: if a listener refuses `agent_start`, the message is afterwards neither in a queue nor in the transcript |
| QueueRuns.QueuesLoseNothing | packages/agent/src/agent.ts:440-447 | when a run is over, the messages it injected and those still queued are together the prompts given, those queued before and those enqueued meanwhile, none lost and none doubled |
| QueueRuns.PollsFindOneAtATime | packages/agent/src/agent.ts:338-447 | with both queues in mode `one-at-a-time` and nobody switching it, no poll of a run finds more than one message, and `continue` prompts with no more than one |
| Proxy.ProcessProxyEvent | packages/agent/src/proxy.ts:238-367 | the message afterwards and the event passed on or the error thrown, for every event and every message under construction, holes and wrong kinds of block included |
| ReaderView.RefusedExactly | packages/agent/src/proxy.ts:250-347 | an event is refused exactly if it is a delta for a block of another kind or for none, or the end of a text or of thinking where there is none; the error says which, and the message stays as it is |
| ReaderView.OneForEach | packages/agent/src/proxy.ts:238-367 | each accepted event but an unknown one and the end of a block that is no call passes on one event, of its kind and index and with its delta; an end carries the block that it leaves |
| ReaderView.NoDeltaIsLost | packages/agent/src/proxy.ts:250-334 | in every accepted sequence: the deltas passed on for a block since its last start are, joined, those sent for it |
| ReaderView.BlocksHoldWhatWasSent | packages/agent/src/proxy.ts:246-306 | and a text or thinking block of the message is at every moment just these |
| ReaderView.ReaderIsHandedTheMessage | packages/agent/src/proxy.ts:183-367 | a text that carries a message, however it is cut: the reader is handed one event for each event sent, in order, and the final one last; the deltas for each block are, joined, its text, its thinking, or the JSON sent for it |
| ReaderView.FailureIsReported | packages/agent/src/proxy.ts:183-224 | a stream that fails before its final event: the reader is handed the events so far and then the completing one, and the result is the message so far, marked with the error and with whether the request was aborted |
| ReaderView.BadLineIsReported | packages/agent/src/proxy.ts:195-224 | a line that does not decode, or whose event is refused, stops the stream there, in the same way |
| ReaderView.RefusalIsReported | packages/agent/src/proxy.ts:151-181 | so does a request that is turned down, with an empty message |
| ReaderView.FirstTroubleCounts | packages/agent/src/proxy.ts:183-194 | only the first trouble of a response counts, and the text before it |
| Proxy.PartialMessage.Assign | packages/agent/src/proxy.ts:247-247 | writing behind the end of the content leaves holes |
| RoundTrip.SlotsAreIndependent | packages/agent/src/proxy.ts:238-367 | in any sequence of events that is not refused, each block ends up as its own events alone would leave it |
| RoundTrip.RefusedInSomeSlot | packages/agent/src/proxy.ts:250-347 | a sequence is refused only if the events of some block alone are, and for the same reason |
| RoundTrip.InterleavingIsIrrelevant | packages/agent/src/proxy.ts:238-367 | interleavings of the same blocks are all refused or all give the same content |
| RoundTrip.BlockIsRebuilt | packages/agent/src/proxy.ts:246-348 | a block cut into any pieces is rebuilt, arguments parsed from all its JSON, whatever was in its place before |
| RoundTrip.MessageIsRebuilt | packages/agent/src/proxy.ts:238-367 | any interleaving of blocks in any pieces, closed by the final event, is folded into the message as far as the wire carries it |
| RoundTrip.InOrderEncodes | packages/agent/src/proxy.ts:36-57 | sending the blocks one after the other is such an interleaving |
| RoundTrip.ArrivesIntact | packages/ai/src/types.ts:288-302 | timestamps aside, what arrives is the message sent if and only if no thinking block is redacted, no call has a thought signature, the JSON of each call parses to its arguments, only a failed message has an error message, API, provider and model are those requested, and there is no response model, no response id and no diagnostics |
| RoundTrip.AResponseIdIsLost | packages/agent/src/proxy.ts:36-57 | a plain text reply to which its provider has given an id arrives without the id, and otherwise as it was sent |
| RoundTrip.ArgumentsOfCall | packages/agent/src/proxy.ts:310-334 | in any interleaving, the arguments of a call are the parse of the JSON text the reducer goes by |
| RoundTrip.JsonIsWhatWasSent | packages/agent/src/proxy.ts:320-348 | this text is what was sent since the last start if and only if no delta follows an end, or what was sent before it spells `undefined` |
| RoundTrip.ADeltaBehindTheEnd | packages/agent/src/proxy.ts:320-348 | a delta behind the end of its call is parsed with `undefined` in front |
| Framing.SplitThenPop | packages/agent/src/proxy.ts:192-193 | `split` and `pop` part the terminated lines from the rest |
| Framing.LinesOfConcat | packages/agent/src/proxy.ts:191-193 | framing a text in two steps, with the rest of the first put in front of the second, is framing the whole |
| Framing.LinesMakeUpText | packages/agent/src/proxy.ts:191-193 | the lines and the rest make up the text and hold no line feed |
| Framing.LinesAreUnique | packages/agent/src/proxy.ts:191-193 | and nothing else does |
| Framing.CarriageReturnsAreIgnored | packages/agent/src/proxy.ts:196-198 | a carriage return at the end of a line does not change what it carries |
| Framing.PayloadIsBetweenBlanks | packages/agent/src/proxy.ts:196-198 | a line carries a payload if and only if it is the prefix `data: `, blanks, that payload, which has no blanks around it, and blanks |
| ProxyStream.ProcessLine | packages/agent/src/proxy.ts:195-206 | a line without the prefix or without content is skipped; otherwise it is decoded, reduced and passed on, or throws |
| ProxyStream.ProcessLines | packages/agent/src/proxy.ts:195-206 | the lines in order, up to the first that throws |
| ProxyStream.ReadBody | packages/agent/src/proxy.ts:151-213 | the loop over chunks handles exactly the terminated lines of the whole text before trouble, in order and once each, and leaves with the first error |
| ProxyStream.StreamProxy | packages/agent/src/proxy.ts:116-233 | message, events passed on and result, in terms of the text without its chunks, with any error turned into a final error event |
| ProxyStream.EventStream.PushEvent | packages/ai/src/utils/event-stream.ts:21-36 | nothing is taken behind a completing event, which settles the result |
| ProxyGuarantees.ChunkingIsIrrelevant | packages/agent/src/proxy.ts:183-207 | the reader gets the same for every way of cutting the same text into chunks, errors included |
| ProxyGuarantees.TailIsNeverRead | packages/agent/src/proxy.ts:183-213 | what follows the last line feed has no effect |
| ProxyGuarantees.ProxiedMessageIsRebuilt | packages/agent/src/proxy.ts:183-353 | a text that carries a message gives its reader that message as the result and as the last event, however it is cut |
| ProxyGuarantees.FromServerToReader | packages/agent/src/proxy.ts:183-367 | the whole way: events of a message, in any interleaving and any pieces, written one per line with a codec that reads back what it writes, and the text cut anywhere |
| ProxyGuarantees.LateFailureRewritesTheResult | packages/agent/src/proxy.ts:183-224 | for every response whose text carries a message: the reader is handed it, and still holds it in the end if and only if the connection makes no trouble and no abort is seen behind it (for a message that has failed itself: or the failure leaves the same marks) |
| ProxyGuarantees.LaterLinesRewriteTheResult | packages/agent/src/proxy.ts:195-224 | for any lines behind those that carry it: if and only if these are accepted and together leave the message as it is, and nothing fails behind them |
| ProxyGuarantees.OnlyTheseLeaveAsIs | packages/agent/src/proxy.ts:238-367 | for every event and every message under construction: it is accepted and changes nothing if and only if it touches no block, is an empty delta or an end with the same signature for a block of its kind, the end of a call that has ended, a start for a block as good as new, an empty delta for a call still open whose arguments are up to date, or a final event that says the same again |
| ProxyGuarantees.OneLaterLineRewritesTheResult | packages/agent/src/proxy.ts:195-224 | one line behind the message: the reader still holds the message if and only if the line carries nothing or one of these events, and nothing fails behind it |
| ProxyGuarantees.AMalformedLineBehindTheMessage | packages/agent/src/proxy.ts:199-224 | a line behind it that does not decode makes it a failed message |
| ProxyGuarantees.ResultNeedsFinalEvent | packages/agent/src/proxy.ts:207-224 | the stream always ends, and has a result if and only if it fails or one of its terminated lines carries a final event |
| ProxyGuarantees.ProxiedTurnIsOneAppend | packages/agent/src/agent-loop.ts:310-367 | a proxied turn adds exactly the rebuilt message to the transcript if and only if the server sends at most one `start` |
| Packer.CollectTranscripts | scripts/session-transcripts.ts:182-189 | one transcript, never empty, per session with messages, in order |
| Packer.SplitIntoFiles | scripts/session-transcripts.ts:196-241 | the files named and written are the packed groups in order, and pending content is never found behind the first check when a transcript is above the limit |
| Packer.WriteTranscripts | scripts/session-transcripts.ts:182-241 | nothing is written if there are no transcripts, and otherwise the packed groups are |
| Packer.NamesAreDistinct | scripts/session-transcripts.ts:204-204 | different indices give different file names, also beyond three digits |
| PackerGuarantees.ThreeDigits | scripts/session-transcripts.ts:204-204 | the first thousand files have numbers of three digits |
| PackerGuarantees.PackingConserves | scripts/session-transcripts.ts:197-241 | the files hold all transcripts once and in order, each is within the limit or one transcript above it, and none had room for the first transcript of the next |
| PackerGuarantees.AdjacentFilesExceed | scripts/session-transcripts.ts:202-210 | two adjacent files and a separator exceed the limit |
| PackerGuarantees.FewFiles | scripts/session-transcripts.ts:197-241 | half the number of files, rounded down, times one less than the limit is at most the total length written |
| PackerGuarantees.GreedyIsAhead | scripts/session-transcripts.ts:201-233 | after any number of transcripts the packer has no more files than any other grouping, and if as many, no more in the open one |
| PackerGuarantees.PackingIsOptimal | scripts/session-transcripts.ts:201-241 | no order-preserving grouping within the limit, single oversized transcripts excepted, has fewer files |
| PackerGuarantees.EveryFileIsOnDisk | scripts/session-transcripts.ts:203-240 | every file named is on disk with the content of its group |
| PackerGuarantees.EveryMessageIsWritten | scripts/session-transcripts.ts:182-241 | every message of every session is in one of the files, as it stands, in a transcript headed by the name of its session, and kept apart from the next message |
| PackerGuarantees.TranscriptsAreKeptApart | scripts/session-transcripts.ts:232-232 | two transcripts in one file are separated by an empty line and nothing else |
| PackerGuarantees.TranscriptsAreOf | scripts/session-transcripts.ts:182-189 | the transcripts are those of the sessions that have messages, of all of them and no others, in order |

## Left out

- RoundTrip.ArrivesIntact: says nothing about the timestamp, because the one received is the time of the request.
- Timestamps, images, API keys, session ids, model and thinking-level changes, payload hooks, cost fields of the usage: they do not steer control flow.
- `convertToLlm` and `transformContext`: the transcript handed to the provider is the loop's; what these make of it is not modelled.
- `validateToolArguments`, `prepareArguments`, the hooks, the tools and the providers: each is an answer in the script, returned or thrown.
- The abort flag: every place that reads it reads an answer of the script, so also histories in which the flag would fall again are covered; `Aborts` adds what a flag that stays up does.
- Exceptions out of `emit`, of a queue getter or of the provider function: the loop has no handler for them, so a failing run is a piece of a run followed by the failure handling, and `Failures.Fails` says behind which pieces and for which causes (`Lifecycle.FailedRun`, `AgentRuns.FailedAgentRun`).
- Listener sets and unsubscribing: listeners are one recipient that may throw while a failure is handled.
- `clearSteeringQueue`, `clearFollowUpQueue` and `clearAllQueues` in histories: queue conservation is stated without them, since they exist to drop messages.
- `agentLoop` and `agentLoopContinue`: they push the events of the two functions modelled here into an `EventStream`, and the first errors of a continuation are raised before it.
- A provider stream that never yields its result: in the loop the final message of a stream is always there, and `ResultNeedsFinalEvent` says when a proxied stream has one.
- Shallow copies and shared objects: blocks, messages and contexts are values, so that one holder sees a change made through another is modelled only where it matters: the transcript of a continuation and the message of a proxied stream.
- What a reader of a proxied stream sees of the message between two events: `ProxiedTurnIsOneAppend` holds for anything it may be shown.
- `fetch`, reader cancellation, byte decoding, JSON syntax and `parseStreamingJson`: requests, texts, a decoder and a parser are parameters.
- Content indices that are not natural numbers.
- Lengths count characters; a Dafny `char` stands for one UTF-16 code unit.
- In `session-transcripts.ts`: arguments, reading and parsing of sessions, console output and the analysis by subagents.
