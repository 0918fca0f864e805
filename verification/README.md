# KaryaKram: a verified model of its durable workflow engine

KaryaKram runs workflow functions durably. A function is re-run from the top against an append-only log of
events; what it has not asked for yet becomes commands, commands become events, and events become tasks that
workers lease from a Postgres queue. Workers crash, leases expire and are taken again, deliveries repeat. What
the engine promises is about all runs under such conditions, and that is what this project states and proves.

The model is in four groups of modules.

**Texts and requests.** `texts.dfy`, `json.dfy`, `canonical.dfy`, `key_order.dfy`, `requests.dfy`, `utf8.dfy`,
`size_caps.dfy`, `formats.dfy`, `stored_request.dfy`, `stored_copies.dfy`, `shrink_caps.dfy`. JavaScript strings are sequences of 16-bit units, JSON values a datatype
whose object members have an order and may be `undefined`. The JSON printer is proved injective, so that canonical texts
decide equality of meaning and a request hash covers exactly the model, the messages, the params and the tools.
`KeyOrder`, `Formats` and `StoredCopies` say what the texts and copies are, character by character and field by field.

**Replay and decisions.** `events.dfy`, `replay_spec.dfy`, `readings.dfy`, `drain.dfy`, `replay.dfy`,
`replay_laws.dfy`, `decisions.dfy`, `engine.dfy`, `runs.dfy`, `delivery.dfy`, `task_outcomes.dfy`, `recovery.dfy`,
`fold.dfy`, `fold_fields.dfy`, `statuses.dfy`, `schedules.dfy`, `tick_limit.dfy`. A workflow function is any deterministic map from the answers it has had to its next action: return, throw, or await a
batch of calls until all of them have settled. `Replay.Replay` is the source's loop with its counters, maps and
tick budget; it is proved to compute `ReplaySpec.ReplayOf`, and the laws are about that function. `Engine` is
the state machine of one workflow: its workflow tasks read the log, decide and append, and crash and are
redelivered anywhere, while outcomes, repeated timer firings, signals and cancellation requests land in between.
`Runs.DirectRun` and `Runs.DirectEnd` are an independent interpreter with neither log nor hashes nor commands,
without and with a tick budget. `Readings` states what a call gets from the events of the log themselves, without the
functions replay is specified by, and `FoldFields` does so for the folded state.

**Queue and event store.** `queue.dfy`, `leases.dfy`, `heartbeats.dfy`, `heartbeat_calls.dfy`, `heartbeat_runs.dfy`,
`event_store.dfy`, `store_runs.dfy`, `store_tasks.dfy`, `wakeup_example.dfy`. `TaskQueue` and `Store` are the classes
of statements as they update their tables. `Leases`, `Heartbeats` and `StoreRuns` are machines over whole runs: dequeues in flight side by
side, workers with clocks, append transactions whose statements interleave with everything else.

**LLM and tool steps.** `step_protocol.dfy`, `step_safety.dfy`, `step_effects.dfy`, `step_limits.dfy`,
`step_causes.dfy`, `requeue_denies.dfy`, `requeue_example.dfy`, `tool_handler.dfy`, `handler_plays.dfy`,
`llm_handler.dfy`, `activity_handler.dfy`, `activity_runs.dfy`. Any number of handler invocations run a statement at a time, each transaction with its own
uncommitted writes. `ToolHandler.StepTables` and `LlmHandler.HandleLlm` are the handlers as one piece of code each, with
their refusals, unexpected throws and database errors, and are proved to be runs of the protocol. Activities and timers
are not fenced: `ActivityHandler` is their code, `ActivityRuns` their handler calls side by side.

## Results that contradict the code's own documentation or expectation

- The comment at `packages/worker-sdk/src/activityHandler.ts:33-38` counts on a check of the history against running
  an activity twice. Two calls whose leases follow each other can still both record an outcome: exactly if the later
  one reads the log before the earlier one's outcome is in it (`ActivityRuns.TwoOutcomesIff`). The second outcome takes
  back the answer replay has given (`ActivityRuns.SecondOutcomeCounts`).
- `canonicalize` and `mapStrings` assign `out[key]`; a member named `__proto__` sets the prototype and is lost.
  Canonical texts therefore decide equality exactly for values without such members
  (`CanonicalForm.MeaningKeptIff`, `CanonicalForm.ProtoCollision`).
- `shrinkRequest` counts content bytes before JSON escaping, and its fallback keeps the model's name whatever its
  length, so a shrunken prompt can exceed the cap. It fits exactly when the escapes of the cut contents, or of the
  name, fit in as well (`ShrinkCaps.ShrinkFitsIff`, `ShrinkCaps.StoredFitsIff`, `SizeCaps.ShrinkOverflows`).
- `foldEvents` throws on a signal named like a member every JavaScript object inherits (`toString`,
  `constructor`, ...), and with it the append that carries the signal (`WorkflowFold.FoldThrowsIff`).
- docs/04 says a cancellation durably ends a workflow. The handler still replays after `WorkflowCanceled`:
  `CANCELED` holds exactly until a workflow task has read a history on which the code ends by itself
  (`Statuses.CanceledHoldsIff`, `Statuses.CanceledIsNotFinal`). `COMPLETED` and `FAILED` are final.
- The comment at `packages/db/src/queue.ts:321-327` says a crash-looping task dead-letters after `max_attempts`
  dequeues. Only a reported failure dead-letters; a task whose workers die without reporting is dequeued for ever
  (`Leases.CrashLoopNeverDies`, `Leases.DeadIffFailedOut`).
- `requeueDeadTask` resets `attempt`, which makes old fencing tokens good again (`RequeueDenies.RequeueRevivesTokens`).
  Effects stay exactly-once, but the log may then say `TOOL_FAILED` of a committed effect
  (`RequeueExample.RequeueHidesEffect`). That can happen exactly after a requeue that comes while a handler call of
  the task has not ended and its step has no outcome, or while one still works on a step that has failed: a check an
  operator can make (`StepEffects.Endangers`, `RequeueDenies.RequeueDeniesIff`). In runs without such a requeue
  outcome and effect always agree (`StepEffects.OutcomeMatchesEffect`).
- An append enqueues no workflow task while one is live. No live task is left to see the new event exactly when
  that one ends before the append commits and no dead one is brought back after it (`StoreRuns.WakeupLostIff`,
  `StoreRuns.BlockerDecides`, `WakeupExample.WakeupCanBeLost`).
- `Worker.stop` ends heartbeats before draining, and returns at its deadline with handlers still going. A stopped
  worker's call keeps its lease exactly until a lease past its dequeue or the last heartbeat, whatever the drain
  timeout (`Heartbeats.StoppedKeepsIff`, `HeartbeatRuns.StoppedLosesLease`). Only where the process is then gone, as
  with `installGracefulShutdown` but not where a caller waits for `pool.end()`, does a drain within lease minus
  interval lose nothing; the default one is longer (`Heartbeats.ShortDrainProtects`,
  `HeartbeatRuns.LongDrainLosesLease`).
- `packages/worker-sdk/src/config.ts:57-62` checks that heartbeats are more frequent than leases expire. That is enough
  exactly while twice the time answers take fits into the difference (`Heartbeats.HeartbeatsProtect`,
  `HeartbeatRuns.SlowAnswersLoseLease`).
- `dispatch` keys its calls by task id. A retry due before the failed call's entry is deleted shares the entry, and loses
  it and with it its heartbeats (`HeartbeatRuns.OvertakenLosesLease`, `HeartbeatCalls.NeverRenewed`). A running
  worker's call is safe as long as no other call of its task reports or deletes; the step that does costs it its lease
  or its entry (`HeartbeatCalls.DisturbedLoses`). None does if no retry is due before that deletion
  (`HeartbeatCalls.NothingDisturbed`).

## Assumptions

- Workflow code is deterministic and awaits its calls in batches until all have settled.
- Workflow tasks of one workflow do not overlap, and an activity has at most one outcome: their handlers are not
  fenced. `ActivityRuns.TwoOutcomesIff` says when the latter holds. That an LLM or tool step has at most one outcome is
  proved, not assumed (`StepEffects.OneOutcome`).
- Where a statement needs it, the hash has no collisions (`Delivery.CollisionFree`) and JSON objects hold no key
  twice (`Json.Proper`).
- What `Heartbeats` takes for granted of timing is named where it is used: `Timely` (timers are punctual, answers take a
  given time at most, no heartbeat fails), `ExitsInTime`, `Patient`. Its machine itself lets all of them fail.
- Step ids tell the steps of a workflow apart in the step protocol; that is what `Runs.SchedulesNothingTwice` and
  `Events.StepIdsInjective` give, and one task per schedule event is what `StoreTasks.ExactlyOneTask` gives.

## Model

| member | source | states |
|---|---|---|
| Json.StringifyDecode | packages/core/src/llm.ts:100-102 | the JSON printer is injective, also in front of what may follow a value (sections 4 to 7 of RFC 8259) |
| CanonicalForm.CanonicalJsonDecides | packages/core/src/llm.ts:73-102 | two canonical texts are equal iff the values mean the same: key order ignored, undefined members dropped, undefined items null |
| CanonicalForm.MeaningKeptIff | packages/core/src/llm.ts:83-91 | a value's canonical form means what the value means iff it holds no `__proto__` member |
| CanonicalForm.CanonicalJsonDecidesAll | packages/core/src/llm.ts:95-102 | without such members canonical texts decide equality outright |
| CanonicalForm.ProtoCollision | packages/core/src/llm.ts:85-89 | a value with a `__proto__` member and one without have the same canonical text |
| CanonicalForm.Canonicalize | packages/core/src/llm.ts:73-93 | the recursive loop over sorted keys computes the canonical form the laws are about |
| KeyOrder.MembersInOrder | packages/core/src/llm.ts:83-91 | of two members of canonical JSON the earlier has the smaller array index, or the only one, or neither is an index and its key has the smaller unit where the two first differ |
| KeyOrder.MembersAreThese | packages/core/src/llm.ts:84-90 | its members are those of the value that hold something, each in canonical form, but for `__proto__` |
| KeyOrder.IndexKeys | packages/core/src/llm.ts:86 | the keys enumerated first are the decimal numerals of 0 to 2^32 - 2 |
| Requests.CanonicalRequestDecides | packages/core/src/llm.ts:23-107 | request texts are equal iff model, messages, params and tools agree, the last two up to canonical form and defaults |
| Requests.CanonicalToolCallDecides | packages/core/src/llm.ts:109-112 | tool-call texts are equal iff tool name and arguments agree, absent arguments being null |
| Formats.RequestIs | packages/core/src/llm.ts:23-107 | the text a request hash is taken of, for every request: its members, their order and the defaults written out |
| Formats.ToolCallIs | packages/core/src/llm.ts:109-112 | the text an arguments hash is taken of, likewise |
| Formats.ShortEscapes | packages/core/src/llm.ts:100-102 | the seven characters with an escape of their own (section 7 of RFC 8259) |
| Formats.LongEscapes | packages/core/src/llm.ts:100-102 | other control characters and lone surrogates print as four lower-case hexadecimal digits of their value |
| Formats.NotEscaped | packages/core/src/llm.ts:100-102 | surrogate pairs and all other characters print as they are |
| Formats.ScalarsAre | packages/core/src/llm.ts:100-102 | a number prints as its sign and the digits of its value, null and booleans by name |
| Utf8.DecodeEncode | packages/worker-sdk/src/llmConfig.ts:94-99 | decoding the UTF-8 of a string gives it back, lone surrogates replaced (section 3 of RFC 3629) |
| Formats.EncodingIs | packages/worker-sdk/src/llmConfig.ts:94-99 | the bytes of a character: as many as its number needs, sharing its bits with the marks of section 3 of RFC 3629 |
| SizeCaps.CharacterStart | packages/worker-sdk/src/llmConfig.ts:96-98 | backing up over continuation bytes ends exactly after the characters that fit |
| SizeCaps.TruncateUtf8 | packages/worker-sdk/src/llmConfig.ts:93-100 | the byte loop returns the whole-character prefix that fits |
| SizeCaps.TruncatedIsLongest | packages/worker-sdk/src/llmConfig.ts:92-100 | nothing that fits is cut, the result fits, and one more character would not have |
| SizeCaps.TruncatedToNothing | packages/worker-sdk/src/llmConfig.ts:93-100 | a negative budget leaves nothing and is marked truncated, even of an empty text |
| SizeCaps.CapResponse | packages/worker-sdk/src/llmConfig.ts:164-183 | the loop keeps the cut text and the tool calls that still fit, and sets truncated iff something went |
| SizeCaps.CapHolds | packages/worker-sdk/src/llmConfig.ts:163-183 | the response is within the cap, keeps a subsequence of the calls, and is marked truncated iff text and calls together were over the cap |
| SizeCaps.KeptSnoc | packages/worker-sdk/src/llmConfig.ts:171-180 | each tool call is kept exactly if it fits into what those kept before it leave |
| Formats.CallSizeIs | packages/worker-sdk/src/llmConfig.ts:172 | the size of a tool call is that of its JSON text with id, name and arguments |
| ShrinkCaps.ShrinkFitsIff | packages/worker-sdk/src/llmConfig.ts:114-131 | a shrunken prompt is within the cap iff the escape surplus of the cut contents fits into their share, or, for the fallback, the fixed bytes and the escaped model name do |
| ShrinkCaps.StoredFitsIff | packages/worker-sdk/src/llmConfig.ts:133-155 | the copy stored is within the configured size iff it was not over it, or shrinking made it fit, both branches exact |
| SizeCaps.ShrinkOverflows | packages/worker-sdk/src/llmConfig.ts:119-130 | a prompt full of quotes exceeds the cap by its whole content share |
| ShrinkCaps.ShrinkBounded | packages/worker-sdk/src/llmConfig.ts:122-130 | off the fallback the contents of a shrunken prompt take at most six times their share |
| StoredRequests.MapStringsLoop | packages/worker-sdk/src/llmConfig.ts:102-112 | the recursive loop maps every string of a value |
| StoredRequests.MapRequestIsMapStrings | packages/worker-sdk/src/llmConfig.ts:149 | redacting a request is redacting its strings |
| StoredRequests.FullCopyIsFaithful | packages/worker-sdk/src/llmConfig.ts:147-155 | a copy marked full asks for the same and has the same hash text; one marked redacted does not mean the same |
| StoredCopies.CopyIs | packages/worker-sdk/src/llmConfig.ts:114-155 | a stored copy field by field: everything redacted, contents cut to their share where it is truncated, or the model alone |
| StoredCopies.CopyIsRedacted | packages/worker-sdk/src/llmConfig.ts:102-155 | what holds of every redacted text holds of every string anywhere in a stored copy, truncated contents aside |
| StoredCopies.MappedTwice | packages/worker-sdk/src/llmConfig.ts:102-112 | mapping the strings of a value twice is mapping them once by both |
| Events.StepIdsInjective | packages/core/src/replay.ts:319-372 | step ids derived from positions tell positions and kinds apart |
| Events.StepIdsSay | packages/core/src/replay.ts:319-372 | a step id is the name of its kind and the decimal digits of its position |
| Drain.BoundedDrain | packages/core/src/replay.ts:434-436 | a drain reports what its pass stops with iff the ticks suffice, else nothing |
| Drain.DrainMonotone | packages/core/src/replay.ts:198-201 | a smaller tick budget never reports anything a larger one would not |
| Replay.FilterLane | packages/core/src/replay.ts:209-212 | the filter loops give the schedule events of a lane in order |
| Replay.SignalsByName | packages/core/src/replay.ts:214-222 | the map holds, per name, the received signals in order |
| Replay.IndexOutcomes | packages/core/src/replay.ts:225-247 | each outcome map holds what the last event to name a seq tells, payload whole, and nothing else |
| Readings.ReplyReads | packages/core/src/replay.ts:257-417 | the reply to any call on any log, read off the events: an answer with every field of the event that tells it, nothing while none does, the command with the data of the call, or the mismatch with what was recorded and what is asked |
| Readings.SettledIff | packages/core/src/replay.ts:225-417 | a call settles with an answer iff its place has an event it fits and the last event to name that one tells this answer |
| Readings.AnswersAreTold | packages/core/src/replay.ts:257-417 | in every pass each answer given to the code is the one the log tells for the call at its place |
| Replay.ReplayContext.constructor | packages/core/src/replay.ts:209-255 | a fresh context indexes the history and has made no calls |
| Replay.ReplayContext.ScheduleActivity | packages/core/src/replay.ts:258-291 | settles with exactly the answer the events tell for its position and type, and keeps counters, commands and mismatch in step with the calls made |
| Replay.ReplayContext.Sleep | packages/core/src/replay.ts:293-312 | resolves iff the timer at its position has fired |
| Replay.ReplayContext.LlmCall | packages/core/src/replay.ts:314-363 | settles with exactly the response, tool calls included, or the error the events tell for its position, step id and request hash; remembers the request of a step in flight |
| Replay.ReplayContext.ToolCall | packages/core/src/replay.ts:365-400 | settles with exactly the result or error the events tell for its position, step id and arguments hash |
| Replay.ReplayContext.WaitForSignal | packages/core/src/replay.ts:402-416 | resolves with the signal of its name and position, and never emits a command |
| Replay.MakeCalls | packages/core/src/replay.ts:257-417 | an awaited batch settles iff every reply of it has |
| Replay.Replay | packages/core/src/replay.ts:203-466 | the loop with its counters, maps and tick budget computes the recursive specification of replay, whose answers `Readings` reads off the log |
| ReplayLaws.PrefixStability | packages/core/src/replay.ts:209-417 | calls and answers on a log are a prefix of those on any extension that takes back no outcome |
| ReplayLaws.BoundedReplay | packages/core/src/replay.ts:198-465 | for any tick budget replay gives its one unbounded answer or RUNNING with no commands; the former once the budget covers the answered awaits |
| ReplayLaws.EndlessReplay | packages/core/src/replay.ts:434-447 | code that never stops is RUNNING with no commands at every budget |
| TickLimit.OutgrownIsStuck | packages/core/src/replay.ts:198-201 | in every run, once the answered awaits need more ticks than the limit, no later workflow task decides anything again, whatever arrives |
| Engine.NeverRaises | packages/core/src/replay.ts:258-400 | replay of a log the same code produced raises no mismatch, whatever the tick budget |
| Engine.DecisionIdempotent | packages/worker-sdk/src/workflowReplayHandler.ts:115-160 | after a decision is appended behind whatever arrived meanwhile, replay asks for nothing and raises nothing |
| Runs.DirectFollowsTrace | packages/core/src/replay.ts:203-466 | replay's answers are those of running the function directly against the recorded outcomes |
| Runs.OracleIsTold | packages/core/src/replay.ts:225-247 | the answers the direct run is given are those the events of the log tell |
| Runs.EngineRefinesDirectRun | packages/worker-sdk/src/workflowReplayHandler.ts:77-161 | in every run each WorkflowCompleted or WorkflowFailed says how the function ends when run directly |
| Runs.RedeliveryRepeatsTheEnd | packages/worker-sdk/src/workflowReplayHandler.ts:93-160 | redelivery of a finished workflow appends its terminal event again and nothing else |
| Runs.OneEnd | packages/worker-sdk/src/workflowReplayHandler.ts:77-161 | all terminal events the code caused in a run are the same |
| Runs.ReplayEndsDirectly | packages/core/src/replay.ts:203-466 | at any tick budget replay reports exactly the end the direct interpreter reaches within it, and is RUNNING iff that one reaches none |
| Runs.SchedulesNothingTwice | packages/worker-sdk/src/workflowReplayHandler.ts:153-160 | in every run the schedule events of each lane match the calls the code made, in order, none twice, and replay raises no mismatch |
| Schedules.EventsAreOfTheCalls | packages/worker-sdk/src/workflowReplayHandler.ts:17-60 | in every run each schedule event carries the data of the call at its place: type and input; tool, arguments, their hash and the configured attempts; step id, request hash and attempts; the duration from a clock reading of the run |
| Schedules.TasksAreAsAsked | packages/db/src/eventStore.ts:84-123 | in every run the task of each schedule event is pending in the default queue with the attempts of its kind, due when its event was appended, or for a timer after the duration asked for |
| Delivery.MatchDecides | packages/core/src/replay.ts:262-383 | an event caused by one call matches another iff the two are the same up to canonical form |
| Delivery.RaisesIffACallChanged | packages/core/src/replay.ts:314-440 | replay raises iff some reached call differs from the one recorded at its lane position; every answered call is the recorded one |
| Delivery.ChangedCodeIsNoticed | packages/core/src/replay.ts:101-108 | in every run, code deployed over the log of other code gets answers only to calls it still makes |
| Delivery.LastDifferenceIsRaised | packages/core/src/replay.ts:438-440 | the error raised names the last call of the batch that differs: its place, what was recorded there and what is asked for now |
| TaskOutcomes.CodeDecides | packages/worker-sdk/src/workflowReplayHandler.ts:115-160 | what the code comes to is what the task appends: its end, one event per command, or nothing |
| TaskOutcomes.CancellationFirst | packages/worker-sdk/src/workflowReplayHandler.ts:93-113 | a cancellation request comes before the code while no end is recorded, with the reason first given |
| TaskOutcomes.LastDifferenceDecides | packages/worker-sdk/src/workflowReplayHandler.ts:115-151 | with changed code the last call of the batch that differs decides: an activity makes the task throw, an LLM or tool call fails the workflow with both hashes |
| TaskOutcomes.UnstartedThrows | packages/worker-sdk/src/workflowReplayHandler.ts:80-89 | without a first start of a registered type the task throws |
| Recovery.ResolvedIsTheRequest | packages/worker-sdk/src/llmHandler.ts:48-81 | a request sent has the recorded hash, so it is the request the hash was recorded for |
| Recovery.RunFullCopies | packages/worker-sdk/src/llmHandler.ts:53-58 | in every run a stored full copy has the recorded hash |
| Recovery.RecoveredByReplay | packages/core/src/replay.ts:351-353 | replay of the log that decided a step still in flight has its request pending under its step id |
| Recovery.EveryOpenStepResolves | packages/worker-sdk/src/llmHandler.ts:38-81 | in every run a step without an outcome resolves, whatever copy was stored, to the request asked for at its place |
| Recovery.FullCopyNeedsNoCode | packages/worker-sdk/src/llmHandler.ts:53-58 | a full copy any run has stored is sent as it is, whatever code is deployed by then |
| Recovery.UnresolvedBecause | packages/worker-sdk/src/llmHandler.ts:59-81 | each reason for not sending a request, iff |
| Recovery.ReplayPending | packages/core/src/replay.ts:351-353 | the requests replay reports in flight are exactly those of the LLM calls it waits for, under their step ids |
| WorkflowFold.FoldThrowsIff | packages/core/src/workflow.ts:336-343 | folding a log throws iff a signal bears a name every object inherits |
| WorkflowFold.SignalsAgree | packages/core/src/workflow.ts:336-343 | `signals[name][i]` is what the i-th `waitForSignal(name)` returns |
| WorkflowFold.FoldAndReplayAgree | packages/core/src/workflow.ts:269-457 | status and value of every step are the same in the folded state as in replay's outcome maps, duplicates included |
| WorkflowFold.FoldAgreesIff | packages/core/src/workflow.ts:269-457 | on any log that folds, the two agree on a step iff its last outcome, if any, is not followed by its schedule event |
| WorkflowFold.FoldStatus | packages/core/src/workflow.ts:309-354 | the status is that of the last terminal event |
| FoldFields.ReportsAreFolded | packages/core/src/workflow.ts:269-457 | the state has every field an event reports, results, errors, LLM figures, latencies and the end of the workflow, until a later event overwrites it |
| FoldFields.StepsAreFolded | packages/core/src/workflow.ts:275-440 | the state keeps what each step was scheduled with |
| FoldFields.EndIsFolded | packages/core/src/workflow.ts:309-354 | there is no result, error or start without an event that reports it |
| FoldFields.StatusIsFolded | packages/core/src/workflow.ts:309-354 | the status is COMPLETED, FAILED or CANCELED as the last such event is, RUNNING without one |
| Statuses.RunsFoldAsTheyReplay | packages/core/src/workflow.ts:269-457 | the agreement of fold and replay holds of every log of every run |
| Statuses.FinalStatusStays | packages/worker-sdk/src/workflowReplayHandler.ts:91-113 | COMPLETED and FAILED are final in every run |
| Statuses.CancellationPreemptsCode | packages/worker-sdk/src/workflowReplayHandler.ts:91-113 | a workflow task that reads a cancellation request and no end appends WorkflowCanceled with the first reason and nothing else |
| Statuses.CanceledHoldsIff | packages/worker-sdk/src/workflowReplayHandler.ts:91-113 | in every run CANCELED still holds later iff no workflow task in between has read a history on which the code, run directly, ends; after the first that has, the workflow is COMPLETED or FAILED |
| Statuses.CanceledIsNotFinal | packages/worker-sdk/src/workflowReplayHandler.ts:93-113 | a run in which a canceled workflow completes |
| Queue.PickFirst | packages/db/src/queue.ts:197-204 | the selection is the first rows in order, no locked one among them, up to the limit |
| Queue.FirstOfUnique | packages/db/src/queue.ts:201-203 | order, limit and SKIP LOCKED leave one possible selection |
| Queue.TaskQueue.Enqueue | packages/db/src/queue.ts:137-170 | a task with these columns is added unless it would be a second live workflow task |
| Queue.TaskQueue.Dequeue | packages/db/src/queue.ts:193-217 | leases rows that were pending, in the queue asked, due, of the type asked if one is, and held by nobody, in order of due time and id; any such row left behind comes after all of them, with the limit reached |
| Queue.TaskQueue.Heartbeat | packages/db/src/queue.ts:232-246 | renews the leases this worker holds among the ids, and returns how many |
| Queue.TaskQueue.Complete | packages/db/src/queue.ts:258-271 | completes a row iff this worker holds it |
| Queue.TaskQueue.Fail | packages/db/src/queue.ts:294-315 | dead-letters or retries a row iff this worker holds it |
| Queue.TaskQueue.ReclaimExpired | packages/db/src/queue.ts:328-349 | makes exactly the selected expired leases pending, attempts unchanged |
| Queue.TaskQueue.IsLeaseOwned | packages/db/src/queue.ts:385-398 | true iff status, holder and attempt are those of the token |
| Queue.TaskQueue.RequeueDead | packages/db/src/dlq.ts:77-91 | makes a dead row pending with no attempts, unless the unique index refuses |
| Leases.DequeuesAreDisjoint | packages/db/src/queue.ts:187-217 | dequeues in flight together hold no row in common |
| Leases.AttemptCountsDequeues | packages/db/src/queue.ts:205-210 | attempt is the number of dequeues since the last requeue |
| Leases.FailedTokenStaysFailed | packages/db/src/queue.ts:368-398 | a token that fails the fence fails it until a requeue |
| Leases.WaitsForRunAfter | packages/db/src/queue.ts:196-204 | a pending task is picked by no dequeue before its run_after: timers do not fire early |
| Leases.RetryWaits | packages/db/src/queue.ts:279-303 | a failed attempt is not retried before the delay its failure asked for |
| Leases.FinishedStays | packages/db/src/queue.ts:258-271 | completed is absorbing |
| Leases.DeadIffFailedOut | packages/db/src/queue.ts:294-315 | a task dies iff the holder of an attempt at or past the maximum reports a failure |
| Leases.DeadAfterExactlyMaxAttempts | packages/db/src/queue.ts:288-315 | if leases only ever end in reported failures, a task dies after exactly max_attempts dequeues |
| Leases.CrashLoopNeverDies | packages/db/src/queue.ts:321-349 | for every n a task is pending again after n dequeues whose workers crashed, whatever its maximum |
| Heartbeats.HeartbeatsProtect | packages/worker-sdk/src/worker.ts:140-217 | if twice the delay of answers fits between heartbeat interval and lease, a call no other call of its task disturbs passes the fence, unexpired, while its worker runs, and after a stop until a lease past its dequeue or the last heartbeat less the delay |
| Heartbeats.OnlyAbandonedReclaimed | packages/worker-sdk/src/worker.ts:192-217 | under such delays the reaper takes a task from a call under way only if that call was disturbed, or its worker stopped longer ago |
| Heartbeats.StoppedKeepsIff | packages/worker-sdk/src/worker.ts:224-254 | with instant answers a stopped worker's undisturbed call holds an unexpired lease iff a lease past its dequeue and the last heartbeat has not gone by, for any drain timeout |
| Heartbeats.ShortDrainProtects | packages/worker-sdk/src/worker.ts:224-268 | if the process exits at the deadline and drain, interval and delay fit into the lease, no undisturbed call loses its lease |
| HeartbeatCalls.NothingDisturbed | packages/worker-sdk/src/worker.ts:168-189 | if no failed call outlives the time its retry is due, no call of a running worker is ever disturbed |
| HeartbeatCalls.DisturbedLoses | packages/worker-sdk/src/worker.ts:148-189 | in every run a call that is disturbed has lost its entry in the map, or its lease for good |
| HeartbeatCalls.NeverRenewed | packages/worker-sdk/src/worker.ts:192-217 | a call whose task no heartbeat names any more, its entry gone or its worker stopped, has its lease expire when it would have, whatever else runs |
| HeartbeatRuns.LongDrainLosesLease | packages/worker-sdk/src/worker.ts:224-254 | for every configuration and delay whose drain is longer there is a run, with the process gone at its deadline, in which an undisturbed call's lease expires |
| HeartbeatRuns.StoppedLosesLease | packages/worker-sdk/src/worker.ts:224-254 | for every configuration, short drains included, there is a run in which the reaper takes the task of a call at work at any time past its lease once its worker has stopped |
| HeartbeatRuns.SlowAnswersLoseLease | packages/worker-sdk/src/config.ts:57-62 | for every configuration and delay of which two do not fit there is a run in which a running worker's undisturbed call expires |
| HeartbeatRuns.OvertakenLosesLease | packages/worker-sdk/src/worker.ts:165-189 | for every configuration that runs two calls at a time there is a run with instant answers in which a retry overtakes the deletion and expires at a running worker |
| HeartbeatRuns.DefaultsDrainTooLong | packages/worker-sdk/src/config.ts:48-81 | the default settings have a drain that is too long |
| Heartbeats.ConfigIs | packages/worker-sdk/src/config.ts:45-84 | exactly the configurations accepted, and the defaults |
| StepEffects.ExactlyOnceEffect | packages/worker-sdk/src/toolHandler.ts:151-224 | over all interleavings, crashes and requeues a step's effect is committed at most once, iff its ledger row is, and that row has a result |
| StepEffects.OneOutcome | packages/worker-sdk/src/fencing.ts:34-71 | no schedule event ever has two LLM or tool outcomes |
| StepEffects.OutcomeIsFenced | packages/worker-sdk/src/fencing.ts:30-71 | an outcome is added only to a step without one, with the attempt its task has under a live lease at that moment |
| StepEffects.OutcomeMatchesEffect | packages/worker-sdk/src/toolHandler.ts:57-217 | in every run whose requeues endanger no step, TOOL_COMPLETED is in the log iff the effect is committed, with the ledger's result, and TOOL_FAILED only without one |
| StepCauses.OutcomesAreReports | packages/worker-sdk/src/toolHandler.ts:57-149 | in every run each outcome reports, field by field, what one invocation of its step met: a refusal, an error final or out of attempts, the answer of the provider, or a completion whose result a handler of the step returned |
| StepCauses.LedgerIsReturned | packages/db/src/toolStore.ts:45-56 | in every run each ledger row holds what a handler of its step returned |
| RequeueDenies.RequeueDeniesIff | packages/db/src/dlq.ts:71-91 | after safe requeues, the next one can bring the log to deny an effect iff it endangers its step: an unfinished call and no outcome, or a call at work on a failed step |
| RequeueDenies.RequeueRevivesTokens | packages/db/src/dlq.ts:83-88 | a requeue makes any token of its task good again in some continuation |
| RequeueExample.RequeueHidesEffect | packages/db/src/dlq.ts:83-88 | with a requeue there is a run that records TOOL_FAILED for a committed effect |
| StepLimits.ProviderCallsBounded | packages/worker-sdk/src/llmHandler.ts:109-235 | provider calls for a step never exceed the dequeues of its task |
| StepLimits.NoCallOnceRecorded | packages/worker-sdk/src/llmHandler.ts:122-131 | an invocation that called the provider had read a history without an outcome |
| ToolHandler.StepTables.HasStepOutcome | packages/worker-sdk/src/fencing.ts:34-48 | finds an outcome of the step iff there is one |
| ToolHandler.StepTables.ClaimExecution | packages/db/src/toolStore.ts:25-43 | claims a free key, else returns the stored result |
| ToolHandler.StepTables.CompleteExecution | packages/db/src/toolStore.ts:45-56 | records the result, an absent one as null |
| ToolHandler.StepTables.AppendStepOutcome | packages/worker-sdk/src/fencing.ts:56-71 | writes an outcome iff the lease is owned when the row is locked, none is recorded and the transaction commits, and throws unless it hears so |
| ToolHandler.StepTables.ExecuteAtomically | packages/worker-sdk/src/toolHandler.ts:151-224 | the transaction's end state: rolled back on an error of tool or database or a lost lease, committed also where the answer is lost |
| ToolHandler.StepTables.Handle | packages/worker-sdk/src/toolHandler.ts:51-149 | the handler's end state and whether it throws, as `ToolHandler.HandledRecords` and `ToolHandler.HandledThrowsIff` spell out, refusals, missing event or tool and database errors included |
| ToolHandler.HandledHolds | packages/worker-sdk/src/toolHandler.ts:35-45 | a handler that returns left an outcome; an effect comes with its ledger row and TOOL_COMPLETED under a live lease, or not at all; a step with an outcome is left alone |
| ToolHandler.HandledRecords | packages/worker-sdk/src/toolHandler.ts:74-149 | the event a handler call appends, every field, and exactly when it does |
| ToolHandler.HandledEffectIff | packages/worker-sdk/src/toolHandler.ts:151-224 | when the effect of the tool is there to stay |
| ToolHandler.HandledThrowsIff | packages/worker-sdk/src/toolHandler.ts:51-149 | exactly when the handler throws |
| HandlerPlays.HandlerIsProtocol | packages/worker-sdk/src/toolHandler.ts:51-224 | a handler call, whatever refuses it, fails or loses its lease before either of its transactions locks the row, is a run of the protocol with the tables and the end its code computes |
| LlmHandler.HandleLlm | packages/worker-sdk/src/llmHandler.ts:109-235 | the handler's end state, whether it throws and whether it has called the provider |
| LlmHandler.LlmRecords | packages/worker-sdk/src/llmHandler.ts:133-230 | the event a handler call appends, every field, and exactly when: a missing request, an error final or out of attempts, or the answer within the cap |
| LlmHandler.LlmThrowsIff | packages/worker-sdk/src/llmHandler.ts:109-235 | exactly when the handler throws, and when it calls the provider |
| LlmHandler.LlmHandlerIsProtocol | packages/worker-sdk/src/llmHandler.ts:109-235 | a handler call, whatever is resolved, answered or fails, is a run of the protocol with the tables, the end and the provider call its code computes |
| ActivityHandler.HandleActivity | packages/worker-sdk/src/activityHandler.ts:16-74 | the outcome of a scheduled activity of a registered type without one is appended, with what its function returned or threw; otherwise nothing is, and exactly when it throws |
| ActivityHandler.HandleTimer | packages/worker-sdk/src/timerHandler.ts:11-25 | TimerFired is appended whatever the log says, or the handler throws |
| ActivityRuns.TwoOutcomesIff | packages/worker-sdk/src/activityHandler.ts:23-74 | in every run of handler calls side by side an activity has two outcomes iff of two of its calls the later read the log before the earlier one's outcome was in it |
| ActivityRuns.SecondOutcomeCounts | packages/core/src/replay.ts:231-240 | a second outcome replaces the answer replay gives |
| EventStore.Store.GetEvents | packages/db/src/eventStore.ts:146-155 | the log of a workflow in order |
| EventStore.Store.EnqueueSteps | packages/db/src/eventStore.ts:84-123 | the loop enqueues the task of every schedule event, in order, as `StoreTasks.TasksInOrder` spells out |
| EventStore.Store.AppendEvents | packages/db/src/eventStore.ts:38-139 | events, tasks, wake-up and status change together, as `StoreTasks.AppendAddsTasks` and `StoreTasks.AppendAddsEvents` spell out, or nothing does |
| StoreRuns.LogsAreNumberedAndFolded | packages/db/src/eventStore.ts:47-136 | under concurrent appenders seqs are exactly 1..n and the status column is the fold of the log |
| StoreRuns.AtMostOneLive | packages/db/src/queue.ts:100-105 | in every run a workflow has at most one pending or leased workflow task |
| StoreRuns.WakeupLostIff | packages/db/src/eventStore.ts:125-128 | from an append's enqueue to its commit, whatever runs in between: no live workflow task is left iff one was live at the enqueue, it ended, and no dead one was brought back after that |
| StoreRuns.BlockerDecides | packages/db/src/queue.ts:163-166 | without requeues in between, iff the very task that swallowed the wake-up ended before the commit |
| StoreRuns.AppendIsItsMoves | packages/db/src/eventStore.ts:38-139 | appendEvents is its lock, write, enqueue and commit one after another; it fails at the fold iff the commit cannot be taken, and at its checks iff the lock cannot |
| StoreRuns.AppendLeavesOneLive | packages/db/src/eventStore.ts:125-139 | an append that commits right after its enqueue leaves exactly one live workflow task |
| StoreRuns.AppendedIsLive | packages/db/src/eventStore.ts:38-139 | so does an undisturbed append |
| WakeupExample.WakeupCanBeLost | packages/db/src/queue.ts:163-166 | a run that appends an event and leaves no live workflow task |
| StoreTasks.ExactlyOneTask | packages/db/src/eventStore.ts:84-123 | in every run each schedule event has exactly one task, with its seq and type |
| StoreTasks.EveryTaskHasItsEvent | packages/db/src/eventStore.ts:84-123 | in every run each such task has its schedule event in the log |
| StoreTasks.TasksInOrder | packages/db/src/eventStore.ts:84-123 | the tasks of an append are those of its schedule events, in order: pending in the default queue, with the seq, type and attempts of each, due at once or, for a timer, when it fires |
| StoreTasks.AppendAddsTasks | packages/db/src/eventStore.ts:38-139 | an append adds these, and a workflow task due at once unless one is live, and nothing else |
| StoreTasks.AppendAddsEvents | packages/db/src/eventStore.ts:47-139 | and its events behind the log, numbered on, leaving other logs alone |
| StoreTasks.AppendFailsBecause | packages/db/src/eventStore.ts:39-136 | an append fails iff it has no events, its workflow has no execution, or some signal bears an inherited name |
| StoreTasks.DueAtOnce | packages/db/src/queue.ts:196-204 | a dequeue at the clock of the append finds the activity, LLM and tool tasks eligible |

## Left out

- Postgres itself: locks, unique indexes, SKIP LOCKED, read-committed visibility and rollback are modelled by their effect; SQL text, pooling, savepoints and jsonb storage are not.
- Promise and microtask scheduling: ticks are a parameter of the workflow function, and `Promise.race` or calls that are not awaited are not expressible.
- sha256 is a function without collisions, ajv validation and the redaction patterns are parameters.
- Numbers other than safe integers, and objects with `toJSON`, are not JSON values here.
- The texts of mismatch errors (`replay.ts:91-130`) are a parameter of the deployment.
- The error for a missing hash option (`replay.ts:315-318`) does not arise: a hash is always given.
- Leader election, LISTEN/NOTIFY, poll back-off and concurrency limits: they affect latency only, or belong to Postgres advisory locks.
- Retry delays (`packages/db/src/backoff.ts`) are parameters of a failure.
- `Engine` lets an activity have one outcome, as it has where its handler calls do not overlap, and a timer fire repeatedly.
- In `LlmHandler.HandleLlm` the request `resolveRequest` finds, or its reason, is a parameter: `Recovery` is about that. Cost estimates are one too.
- `Worker` as a class: its `running` map, timers and `stopped` flag are the state of the `Heartbeats` machine, because they matter only against the clock and the queue.
- `Heartbeats` takes the rows of one dequeue statement one at a time, and has no requeues of dead tasks.
- `listDeadTasks`, `getQueueDepth`, `getEventsSince`, tracing, metrics, providers, prices, the HTTP API and the UI: they only read.
- Queue.TaskQueue.ReclaimExpired: ties in lease expiry are broken by id here, while the source leaves their order open.
- HandlerPlays.HandlerIsProtocol: covers calls whose row and key no other transaction holds; interleaved ones are what `StepProtocol` itself is about.
- LlmHandler.LlmHandlerIsProtocol: covers calls whose row no other transaction holds, likewise.
- CanonicalForm.Canonicalize: does not model the `toJSON` branch, because a value with a method is not one of the JSON values the texts are about.
- Heartbeats.HeartbeatsProtect: takes timers to be punctual and no heartbeat to fail; a late timer or a failed heartbeat is not bounded.
- Engine.DecisionIdempotent: is about workflow tasks that do not overlap, because the handler is not fenced.
