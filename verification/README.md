# Copilot runtime: verified model

A Dafny model of the run pipeline of the desktop Copilot runtime and of five independent pieces of the
repository, with proofs of what they guarantee over all inputs, all runs and all interleavings.

    dafny verify dfyconfig.toml

## What is modelled

The **run pipeline**, from the model's stream to the stored chat history:

| file | part of the system |
|---|---|
| `ExecutionEvents.dfy` | the event buffer that turns text and reasoning deltas, tool and diagnostic events into bracketed segments |
| `ToolLifecycle.dfy`, `AgentStream.dfy`, `AgentReports.dfy` | tool lifecycle events, the agent's event stream that feeds the buffer, watches raw tool calls and closes everything on every exit path, and what it reports told from its history of events |
| `Approval.dfy`, `ApprovalHistory.dfy`, `ToolGate.dfy` | the approval coordinator as a protocol over its table, futures and timers, its resolutions traced back to the steps taken, and tool execution behind it |
| `RunEvents.dfy`, `Orchestrator.dfy` | projection to numbered public events, and the orchestrator's stream with its checks for a vanished client |
| `SessionStore.dfy`, `StoreCalls.dfy`, `RunLifecycle.dfy` | run records, threads and the in-memory store, what each call does to them, and what holds in every reachable store |
| `Bridge.dfy`, `History.dfy` | the bridge that records what it forwards, and the chat history rebuilt from the log |
| `EndToEnd.dfy`, `Cancellation.dfy` | the stages put together, and cancel requests that come in while a run is streamed |

**Independent parts**: the thinking adapter (`Thinking.dfy`, `ThinkingBudget.dfy`, `ThinkingParsing.dfy`,
`ThinkingProperties.dfy`, `ThinkingSettings.dfy`), the timeline table (`Timeline.dfy`), the duplicate-string rewriter (`Rewriter.dfy`), provider catalog lookup
(`ProviderCatalog.dfy`) and the single-flight service creation of the Electron main process (`SingleFlight.dfy`).
`Common.dfy` holds shared values and text operations.

What the source updates in place is a class (`EventBuffer`, `Coordinator`, `EventStream`, `ToolExecution`,
`RunRecord`, `InMemoryStore`, `RunBridge`, `TimelineTable`, `BackendHost`, ...). Each of its methods is proved
against a function on values; the theorems are lemmas about those functions, over whole runs. Pure code is
functions.

Assumptions: the clock is a non-decreasing integer passed to each call; uuids are parameters; everything between
two awaits is one atomic step; JSON decoding, display summaries, thinking metadata and lower-casing are opaque
functions; white space is that of Python's `str.strip`; quotients are exact.

## What the proofs show about the code

These are consequences of the code as it is; each is a theorem below with the exact condition, and a lemma at an
input that shows it.

- An event that has its number can be lost: the one at hand when the client vanishes during publishing
  (`message_run_services.py:621-634`), or the metadata event when preparation fails behind it
  (`message_run_services.py:234-251`, `147-154`). Streamed numbers then have a gap that the log, which numbers on its
  own, does not have (`Orchestrator.StreamNumbers`, `EndToEnd.LoggedNumbers`; `Orchestrator.CutOffLeavesGap`,
  `Orchestrator.LateFailureLeavesGap`).
- The check before the completed event is outside every handler (`message_run_services.py:183-187`). A client that
  vanishes, or a cancel request that comes in, exactly there leaves its run open (`Orchestrator.StreamTerminates`,
  `EndToEnd.RunSettles`, `Cancellation.FateOfRun`; `Orchestrator.VanishingClientEscapes`).
- Re-using the key of a pending timed approval leaves the old timer armed, and it may resolve the new request too
  soon (`Approval.TimersStayLive`, `Approval.ReuseResolvesEarly`). Re-using the key of a request that is awaited
  orphans the waiter: no decision, timer, discard or end of its run reaches it (`ToolGate.HeldUnlessReused`,
  `ToolGate.OrphanWaits`). Calls of one tool that carry no id always share a key (`ToolGate.FallbackIdsCollide`).
- A tool result can make an exception escape all handlers, so that the call never announces an end: a contract status
  that is a list or a map, a root that cannot be read, a result that cannot be displayed
  (`ToolGate.EscapesExactly`; `ToolGate.ListStatusEscapes`).
- A run that leaves a lone user message makes the history of its thread unusable from the next visible run on, and no
  run that comes after changes that (`History.HistoryAccepted`, `History.RejectionStays`;
  `History.LoneQuestionBlocks`).
- A part index that is used again by a later model response is not observed again, and a call that was complete but
  never executed is forgotten (`AgentStream.ReusedIndexUnseen`, `AgentReports.ReportedExactly`;
  `AgentReports.OverwrittenCallForgotten`). Two parts with one id are both failed
  (`AgentReports.SharedIdFailsTwice`).
- An event of type `run_started` or `run_metadata` after a cancel request sets the status back to streaming; the
  request itself is kept (`Bridge.RequestOutlastsStatus`, `RunLifecycle.CancellationStays`;
  `Bridge.MetadataHidesRequest`).
- A budget series' own default may be a value that the series refuses (`ThinkingProperties.BudgetDefaultRefused`;
  `ThinkingProperties.DynamicDefaultRefused`), a default that is rewritten (`off`, `disabled`) may be replaced by the
  first allowed value (`ThinkingProperties.DiscreteDefaultKept`; `ThinkingProperties.OffDefaultLost`), selected token
  numbers are not clamped (`ThinkingProperties.SelectedTokensAreNotClamped`), and `supported: 0` counts as supported
  (`ThinkingProperties.SupportDeclared`).
- Adjacent literals that share a quote corrupt each other when rewritten (`Rewriter.OverlapEatsReplacement`,
  `Rewriter.OverlapSharesQuote`; `Rewriter.SharedQuoteCorrupts`), a constant differs from its literal when that has
  escapes (`Rewriter.ConstantEqualsLiteral`; `Rewriter.EscapeDiffers`), and a literal behind any equals sign, not only
  that of an attribute, is put in braces (`Rewriter.DeclarationGetsBraces`).

Where the documentation disagrees with the code, the code is modelled. The sync promises to make the table equal the
incoming events (`timeline_db.py:298-302`). It does so iff the source had no duplicate ids and no id new to the table is
repeated (`Timeline.SyncMeetsPurpose`): duplicates survive every sync (`Timeline.DuplicateSurvives`), and repeated new
ids make them (`Timeline.UniqueAfterSync`, `Timeline.RepeatDuplicates`).

## Model

| member | source | states |
|---|---|---|
| ExecutionEvents.RunConsistent | backend/app/copilot_runtime/execution_event_graph.py:241-315 | in every reachable buffer state at most one segment is open, under the latest id of its kind |
| ExecutionEvents.OutputIsRendering | backend/app/copilot_runtime/execution_event_graph.py:241-320 | whatever is recorded and wherever it is drained, the consumer's trace is the rendering of an independent grouping: one numbered block per stretch of same-kind non-empty deltas, other events between them in order |
| ExecutionEvents.ItemsAreMaximal | backend/app/copilot_runtime/execution_event_graph.py:241-281 | that grouping never leaves two blocks of one kind side by side |
| ExecutionEvents.OutputBracketed | backend/app/copilot_runtime/execution_event_graph.py:241-320 | a separate recogniser accepts every closed trace: each started segment has one or more non-empty deltas of its own id, nothing else, and is completed |
| ExecutionEvents.RecordedEventBrackets | backend/app/copilot_runtime/execution_event_graph.py:283-295 | recording an event directly keeps the brackets iff it is no segment event or is a non-empty delta of the open segment |
| ExecutionEvents.DrainingIsTransparent | backend/app/copilot_runtime/execution_event_graph.py:317-320 | for any placement of drains the concatenated batches are the undrained output |
| ExecutionEvents.OutputNumbers | backend/app/copilot_runtime/execution_event_graph.py:98-139 | the started ids of a kind are numbered 1..n in order of start |
| ExecutionEvents.StartedIdsDistinct | backend/app/copilot_runtime/execution_event_graph.py:98-139 | no segment id occurs twice, within or across kinds |
| ExecutionEvents.SegmentIdsDiffer | backend/app/copilot_runtime/execution_event_graph.py:98-139 | ids of different kinds or numbers differ |
| ExecutionEvents.TextIsConserved | backend/app/copilot_runtime/execution_event_graph.py:233-281 | recorded text, text in the delta payloads and observed text are equal for every run |
| ExecutionEvents.EventFactory.NextAssistantSegmentId | backend/app/copilot_runtime/execution_event_graph.py:98-100 | the counter goes up by one and the id carries it |
| ExecutionEvents.EventFactory.NextReasoningSegmentId | backend/app/copilot_runtime/execution_event_graph.py:137-139 | the same for reasoning segments |
| ExecutionEvents.EventBuffer.ObservedText | backend/app/copilot_runtime/execution_event_graph.py:233-239 | the text observed of a kind |
| ExecutionEvents.EventBuffer.RecordAssistantDelta | backend/app/copilot_runtime/execution_event_graph.py:241-260 | state and appended events are those of the step that the theorems speak about |
| ExecutionEvents.EventBuffer.RecordReasoningDelta | backend/app/copilot_runtime/execution_event_graph.py:262-281 | the same for reasoning deltas |
| ExecutionEvents.EventBuffer.Record | backend/app/copilot_runtime/execution_event_graph.py:283-295 | the same for other events, which close open segments first |
| ExecutionEvents.EventBuffer.FinishAssistantSegment | backend/app/copilot_runtime/execution_event_graph.py:297-305 | completes an open segment once, and nothing otherwise |
| ExecutionEvents.EventBuffer.FinishReasoningSegment | backend/app/copilot_runtime/execution_event_graph.py:307-315 | the same for reasoning |
| ExecutionEvents.EventBuffer.DrainPending | backend/app/copilot_runtime/execution_event_graph.py:317-320 | hands out what is pending and keeps nothing |
| ToolLifecycle.PayloadTells | backend/app/copilot_runtime/agent_tool_lifecycle.py:43-78 | call, tool, phase, summary and form can be read back from a payload whatever its optional parts, and no lifecycle event maps to a cancelled tool |
| ToolLifecycle.PayloadTellsExtras | backend/app/copilot_runtime/agent_tool_lifecycle.py:43-78 | the optional parts come back as they were given, and those not given do not appear |
| ToolLifecycle.PhasesTell | backend/app/copilot_runtime/agent_tool_lifecycle.py:43-78 | the phase on the wire and that of the execution event belong to the phase of the tool event |
| AgentStream.CallsReported | backend/app/copilot_runtime/agent.py:304-475 | for every stream and ending, per part index at most one observed and at most one completed diagnostic, in this order; counters count flagged calls; no identified call and no completed arguments stay unreported |
| AgentStream.NoCallLeftUnexecuted | backend/app/copilot_runtime/agent.py:477-524 | after a successful run every completed call with an id has a lifecycle event |
| AgentStream.NoteTells | backend/app/copilot_runtime/agent.py:452-475 | a diagnostic's details name part, call and tool, and carry the arguments iff they are complete: the dictionary they are or decode to, or else text that is not blank |
| AgentStream.NotePayloadTells | backend/app/copilot_runtime/agent.py:406-475 | each kind of diagnostic has a code of its own and carries those details |
| AgentStream.FailureTells | backend/app/copilot_runtime/agent.py:477-524 | the failure of an unexecuted call repeats its id, its tool and a summary of its arguments iff they decode |
| AgentStream.ReusedIndexUnseen | backend/app/copilot_runtime/agent.py:406-429 | an event yields an observed diagnostic iff its part was not observed before and is identified now, a completed one iff it was observed, not completed and its arguments parse now, and never both |
| AgentReports.ReportedExactly | backend/app/copilot_runtime/agent.py:406-524 | for every stream and ending, each part's diagnostics from the events alone: observed iff it had a name and an id at some point, completed later iff its arguments (concatenated text, united dictionaries) decoded only after that, and after a successful run reported unexecuted, once, iff they decoded and the part's last id was never announced |
| AgentReports.GatheredSnoc | backend/app/copilot_runtime/agent.py:315-384 | after every event the record of a part is what the history says: name fragments joined, the last id, argument pieces of one kind joined, a starting part beginning anew with what it states |
| AgentReports.StreamedText | backend/app/copilot_runtime/agent.py:368-379 | for one start of a part and its deltas the text of the arguments is all text received, in order |
| AgentReports.LastWins | backend/app/copilot_runtime/agent.py:380-383 | of united dictionaries each key has the value of the last one that has the key |
| AgentReports.FinalCheckExact | backend/app/copilot_runtime/agent.py:477-524 | the final check adds, for each call pending before it and in their order, a diagnostic, a failed lifecycle event and a flush, and nothing else |
| AgentReports.OverwrittenCallForgotten | backend/app/copilot_runtime/agent.py:477-484 | a stream in which a complete call that no tool announced is not reported, because a later call took its index |
| AgentReports.SharedIdFailsTwice | backend/app/copilot_runtime/agent.py:477-524 | a stream in which two parts with one id are both reported unexecuted |
| AgentStream.OpsArePlain | backend/app/copilot_runtime/agent.py:265-272 | the stream records no segment events, no ends of the run and no cancelled tools |
| AgentStream.QueueWellFormed | backend/app/copilot_runtime/agent.py:274-302 | on success, exception and cancellation the queue holds one closed, well-formed trace before its end marker |
| AgentStream.QueueKeepsText | backend/app/copilot_runtime/agent.py:304-366 | the delta payloads in the queue are exactly the text received from the model, per kind, on every exit path |
| AgentStream.EventStream.Handle | backend/app/copilot_runtime/agent.py:304-366 | one model or tool event changes tracker, buffer and queue as specified, and everything emitted is in the queue or pending |
| AgentStream.EventStream.ObserveCall | backend/app/copilot_runtime/agent.py:406-450 | a changed call emits the diagnostic it owes and updates flags and counters |
| AgentStream.EventStream.RecordLifecycle | backend/app/copilot_runtime/agent.py:265-272 | the call id counts as announced and the event is flushed |
| AgentStream.EventStream.FailUnexecuted | backend/app/copilot_runtime/agent.py:477-524 | fails the calls listed before any of them is failed |
| AgentStream.EventStream.Conclude | backend/app/copilot_runtime/agent.py:284-297 | output, failure and final check by how the agent ended: text that is not blank is kept stripped, anything else is the failure of its kind |
| AgentStream.EventStream.Finish | backend/app/copilot_runtime/agent.py:297-302 | discards the run's approvals, closes both segments, flushes and marks the end |
| AgentStream.EventStream.RunAgent | backend/app/copilot_runtime/agent.py:274-302 | a whole run leaves the specified queue, tracker, failure and output, and the coordinator without the run's approvals |
| Approval.ReachableInv | backend/app/copilot_runtime/tool_approval_coordinator.py:133-413 | over all interleavings every table entry is pending, unresolved, registered under its own key, with its own future and its own armed timer iff timed |
| Approval.ResolveOnlyMisses | backend/app/copilot_runtime/tool_approval_coordinator.py:267-287 | a decision fails iff the key is missing; the conflict error is unreachable through the table |
| Approval.FutureSettlesOnce | backend/app/copilot_runtime/tool_approval_coordinator.py:351-401 | a future that is done or cancelled keeps that outcome in every continuation |
| Approval.NoTimeoutWithoutAction | backend/app/copilot_runtime/tool_approval_coordinator.py:301-349 | whatever keys are re-used, a request without a timeout action is only ever resolved manually |
| Approval.ResolutionTells | backend/app/copilot_runtime/tool_approval_coordinator.py:351-401 | in every reachable state each delivered resolution repeats its request, has a status that tells its source and decision, and after a timeout the decision its action gives |
| ApprovalHistory.RunsAreTraced | backend/app/copilot_runtime/tool_approval_coordinator.py:133-401 | in every run, from its steps alone: the i-th future belongs to the i-th request as it was made, an entry is the last request under its key, and each resolution comes from one decision or timeout, at its time, with its decision and status, and answers the last request made under its key before |
| ApprovalHistory.DecisionArrives | backend/app/copilot_runtime/tool_approval_coordinator.py:267-287 | a decision on a registered request that is awaited is delivered as made, and touches nothing else |
| ApprovalHistory.TimeoutArrives | backend/app/copilot_runtime/tool_approval_coordinator.py:301-349 | a due timer delivers what the request now under its key wants on a timeout, and otherwise changes nothing |
| Approval.TimersStayLive | backend/app/copilot_runtime/tool_approval_coordinator.py:133-254 | armed timers belong to live entries after a step iff the step does not re-use the key of a timed request |
| Approval.TimeoutsAreOnTime | backend/app/copilot_runtime/tool_approval_coordinator.py:301-349 | without such re-use no timeout resolves a request before its time |
| Approval.ReuseResolvesEarly | backend/app/copilot_runtime/tool_approval_coordinator.py:174-184 | a concrete run in which re-use resolves a request too soon |
| Approval.DiscardRunClears | backend/app/copilot_runtime/tool_approval_coordinator.py:256-265 | discarding a run removes exactly its entries, cancels their futures and touches no other |
| Approval.CancelledWaiterDiscard | backend/app/copilot_runtime/tool_approval_coordinator.py:195-254 | a cancelled waiter's discard by key spares all other waiters iff the key is gone or its future is not awaited |
| Approval.Coordinator.Create | backend/app/copilot_runtime/tool_approval_coordinator.py:133-193 | registers request, future and, if timed, timer; keeps the invariant |
| Approval.Coordinator.FinalizePending | backend/app/copilot_runtime/tool_approval_coordinator.py:351-401 | resolution, future, timer and table change as specified, with a status that tells source and decision, or a conflict changes nothing |
| Approval.Coordinator.ResolveRequest | backend/app/copilot_runtime/tool_approval_coordinator.py:267-287 | delivers the decision, with the status that goes with it, to the registered future unless that is cancelled |
| Approval.Coordinator.FireTimer | backend/app/copilot_runtime/tool_approval_coordinator.py:301-349 | resolves whoever is registered under the timer's key by now, if that has a timeout action |
| Approval.Coordinator.DiscardRequest | backend/app/copilot_runtime/tool_approval_coordinator.py:232-254 | drops one entry, cancelling timer and unfinished future |
| Approval.Coordinator.DiscardRun | backend/app/copilot_runtime/tool_approval_coordinator.py:256-265 | drops all entries of a run and returns exactly their requests |
| Approval.Coordinator.BeginWait | backend/app/copilot_runtime/tool_approval_coordinator.py:195-216 | yields the registered future or the missing-key error |
| Approval.Coordinator.ResumeWait | backend/app/copilot_runtime/tool_approval_coordinator.py:214-230 | returns the delivered resolution, or discards by key after a cancellation |
| ToolGate.BodyRunsOnlyIfAllowed | backend/app/copilot_runtime/agent.py:1032-1103 | in every interleaving a body runs only if registered, enabled, and the policy lists the tool as allowed, or allows by default a tool it does not list, or that call was approved, by timeout only where the policy delays the tool and lists it for approval |
| ToolGate.EnterTells | backend/app/copilot_runtime/agent.py:1032-1080 | unknown tools, disabled tools, allowed tools and all others, up to the first await |
| ToolGate.ResumeTells | backend/app/copilot_runtime/agent.py:1698-1751 | an answered call runs or fails as the answer says |
| ToolGate.CancelTells | backend/app/copilot_runtime/tool_approval_coordinator.py:214-254 | a call cancelled while it waits gives up its future and the request under its key, and no other |
| ToolGate.ModesGiven | backend/app/copilot_runtime/tool_permissions.py:69-88 | the mode is the listed one or else the default, and timeouts are the listed ones, in delay mode only |
| ToolGate.ApprovalAsked | backend/app/copilot_runtime/agent.py:1632-1671 | a registered and enabled call asks for approval iff the policy does not allow its tool, under its own ids, in the mode and with the timeout that the policy gives |
| ToolGate.LifecycleCloses | backend/app/copilot_runtime/agent.py:1032-1123 | a call has announced `failed`, or `started`, optionally `waiting_approval`, and one of `completed`/`failed`, iff it ended neither cancelled nor by an escaped exception |
| ToolGate.EscapesExactly | backend/app/copilot_runtime/agent.py:1367-1400 | which results make an exception escape, given whether the result can be displayed; contract errors are handed back unchanged |
| ToolGate.ListStatusEscapes | backend/app/copilot_runtime/agent.py:1377-1380 | a contract tool whose status is a list: the call starts and announces no end |
| ToolGate.EndTells | backend/app/copilot_runtime/agent.py:1367-1460 | how a call is over when nothing escapes: which results are a failure, a full contract error, a form to fill in or a success |
| ToolGate.RootTells | backend/app/copilot_runtime/agent.py:1545-1560 | which results name a new root, and which root |
| ToolGate.HeldUnlessReused | backend/app/copilot_runtime/tool_approval_coordinator.py:133-265 | all waiters stay registered after a step iff the step does not replace an awaited request |
| ToolGate.DiscardReleases | backend/app/copilot_runtime/tool_approval_coordinator.py:256-265 | discarding a run releases all its waiters iff all of them are registered |
| ToolGate.NoWaiterLeft | backend/app/copilot_runtime/agent.py:297-298 | without such replacements no approval of a run is awaited after its discard |
| ToolGate.OrphanWaits | backend/app/copilot_runtime/tool_approval_coordinator.py:195-265 | an unregistered waiter is answered by no later step but its own cancellation |
| ToolGate.FallbackIdsCollide | backend/app/copilot_runtime/agent.py:1125-1133 | two gated calls of one tool without ids orphan the first |
| ToolGate.ToolExecution.Begin | backend/app/copilot_runtime/agent.py:1032-1080 | a call up to its first await; it runs at once iff the policy allows its tool, and waits iff it does not |
| ToolGate.ToolExecution.Continue | backend/app/copilot_runtime/agent.py:1695-1751 | a call after its approval settled |
| ToolGate.ToolExecution.Conclude | backend/app/copilot_runtime/agent.py:1367-1555 | a call after its body, with the contract branches and the remembered root |
| RunEvents.RunEventFactory.Build | backend/app/copilot_runtime/run_events.py:59-72 | numbers events 1, 2, ... in order of construction |
| RunEvents.Projector.ProjectEvent | backend/app/copilot_runtime/legacy_event_projection.py:96-188 | at most one public event, numbered on; segment borders are hidden, cancelled tools are an error that uses no number |
| RunEvents.ProjectionTells | backend/app/copilot_runtime/legacy_event_projection.py:96-188 | which events are hidden and which refused, and for all others the type and payload of the public event |
| RunEvents.PublishingKeepsText | backend/app/copilot_runtime/legacy_event_projection.py:96-124 | the published text deltas are exactly the assistant deltas of the trace |
| Orchestrator.PublishEvents | backend/app/copilot_runtime/runs/message_run_services.py:612-645 | the publishing loop refines the function that the theorems speak about, check by check |
| Orchestrator.StreamTerminates | backend/app/copilot_runtime/runs/message_run_services.py:127-205 | the stream ends with its only terminal event, except iff the client vanishes exactly at the unhandled check |
| Orchestrator.OpeningTells | backend/app/copilot_runtime/runs/message_run_services.py:138-156 | a stream opens with the start, and with the metadata unless preparation failed |
| Orchestrator.EndingTells | backend/app/copilot_runtime/runs/message_run_services.py:575-610 | which event ends a stream, and what it carries |
| Orchestrator.FailureTells | backend/app/copilot_runtime/runs/message_run_services.py:737-752 | a failure carries code, message and details, and a diagnostic with its stage comes before it |
| Orchestrator.StreamNumbers | backend/app/copilot_runtime/runs/message_run_services.py:612-645 | yielded numbers are 1, 2, ... without a gap iff preparation does not fail behind the metadata event and publishing is not cut off |
| Orchestrator.CutOffExactly | backend/app/copilot_runtime/runs/message_run_services.py:621-634 | publishing is cut off iff one of the checks before its public events finds the client gone |
| Orchestrator.LateFailureLeavesGap | backend/app/copilot_runtime/runs/message_run_services.py:147-154 | preparation fails behind the metadata event: the stream is numbered 1, 3 |
| Orchestrator.CutOffLeavesGap | backend/app/copilot_runtime/runs/message_run_services.py:621-634 | the client vanishes before the first delta: the stream is numbered 1, 2, 4 |
| Orchestrator.VanishingClientEscapes | backend/app/copilot_runtime/runs/message_run_services.py:183-187 | the client vanishes before the completed event: the cancellation escapes |
| Orchestrator.StreamText | backend/app/copilot_runtime/runs/message_run_services.py:612-645 | the yielded text is that of the part of the trace that was got through |
| SessionStore.RunRecord.TouchMetadata | backend/app/copilot_runtime/session_store.py:49-52 | merges metadata and moves the update time |
| SessionStore.RunRecord.AppendEvent | backend/app/copilot_runtime/session_store.py:54-68 | appends one entry under the given number |
| SessionStore.RunRecord.Stream | backend/app/copilot_runtime/session_store.py:70-78 | starts streaming unless terminal, keeping an earlier start time |
| SessionStore.RunRecord.Cancel | backend/app/copilot_runtime/session_store.py:80-92 | a pending run is cancelled, a started one gets a request, a terminal one refuses |
| SessionStore.RunRecord.Terminate | backend/app/copilot_runtime/session_store.py:166-181 | sets any terminal status, also over another one |
| SessionStore.InMemoryStore.NewThread | backend/app/copilot_runtime/session_store.py:198-226 | creates a thread, or says which argument is refused |
| SessionStore.InMemoryStore.NewRunRecord | backend/app/copilot_runtime/session_store.py:274-305 | creates a run, registers it last and makes it the thread's last run, or changes nothing |
| SessionStore.InMemoryStore.ChangeRecord | backend/app/copilot_runtime/session_store.py:319-419 | changes one record in place and touches its thread; all other records stay as they are |
| SessionStore.InMemoryStore.RequestRunCancel | backend/app/copilot_runtime/session_store.py:391-395 | reports whether the run was still open |
| StoreCalls.StreamTells | backend/app/copilot_runtime/session_store.py:70-78 | streaming starts once, keeps a first start time and never re-opens a run |
| StoreCalls.RequestTells | backend/app/copilot_runtime/session_store.py:80-92 | a pending run is cancelled, a started one only asked, an ended one left alone |
| StoreCalls.EndTells | backend/app/copilot_runtime/session_store.py:94-181 | a terminal mark sets status, time and metadata of any run and keeps an older reply unless it brings one |
| StoreCalls.TouchTells | backend/app/copilot_runtime/session_store.py:49-52 | new metadata win over old ones and nothing else changes but the time |
| StoreCalls.AppendTells | backend/app/copilot_runtime/session_store.py:54-68 | one numbered entry more, and nothing else but the time |
| StoreCalls.CreateThreadTells | backend/app/copilot_runtime/session_store.py:198-226 | which arguments are refused, in which order, and what a new thread holds |
| StoreCalls.GetOrCreateTells | backend/app/copilot_runtime/session_store.py:228-255 | an existing thread is taken for its own agent only, and then gains the metadata |
| StoreCalls.CreateRunTells | backend/app/copilot_runtime/session_store.py:274-305 | which arguments are refused, and what a new run and its thread hold; all other runs stay |
| StoreCalls.ChangeRunTells | backend/app/copilot_runtime/session_store.py:319-419 | one run changes, found by its stripped id, and its thread names it as its last |
| StoreCalls.ListingTells | backend/app/copilot_runtime/session_store.py:260-268 | a listing holds exactly the runs of the thread, older ones first and equally old ones by id |
| RunLifecycle.ChangeKeepsRun | backend/app/copilot_runtime/session_store.py:70-111 | every change keeps the run invariant, terminal runs terminal, cancel requests, start time and the log |
| RunLifecycle.StepKeeps | backend/app/copilot_runtime/session_store.py:198-419 | every store call, raising or not, keeps the store invariant and loses nothing |
| RunLifecycle.ReachableStore | backend/app/copilot_runtime/session_store.py:184-419 | in every reachable store `terminal_at` is set iff terminal, non-pending runs that are not cancelled have started, logs are numbered 1..n and a thread's last run exists and is its own |
| RunLifecycle.CancellationStays | backend/app/copilot_runtime/bridge.py:440-452 | the cancellation checker stays true through all later calls |
| RunLifecycle.SortSorts | backend/app/copilot_runtime/session_store.py:260-268 | a listing holds the same runs in order of creation and then of id |
| RunLifecycle.LatestRun | backend/app/copilot_runtime/session_store.py:307-317 | there is no latest run iff the thread has no runs, and a latest run is one of the thread |
| Bridge.LogAtEveryYield | backend/app/copilot_runtime/bridge.py:412-426 | at every yield the log is the old log plus exactly the events yielded, in order, numbered on |
| Bridge.DrainedMirrors | backend/app/copilot_runtime/bridge.py:387-498 | the same for drained and preemptively cancelled streams |
| Bridge.RecordedNumbers | backend/app/copilot_runtime/session_store.py:319-333 | from an empty log, recorded numbers are the streamed ones iff the stream is numbered from 1 without gaps |
| Bridge.DrainedStreamSettles | backend/app/copilot_runtime/bridge.py:387-438 | with cancel and metadata calls anywhere, a drained stream leaves the status of its last terminal event, failed if none |
| Bridge.EscapeLeavesRunOpen | backend/app/copilot_runtime/bridge.py:406-438 | a stream that raises leaves an open run terminal iff it had yielded a verdict |
| Bridge.RequestOutlastsStatus | backend/app/copilot_runtime/bridge.py:500-579 | a requested cancellation outlasts every event, but its status gives way to streaming iff the event is `run_started` or `run_metadata` |
| Bridge.TerminalTells | backend/app/copilot_runtime/bridge.py:520-579 | a terminal event leaves its type, its payload, its time and its reply in the run |
| Bridge.PassingTells | backend/app/copilot_runtime/bridge.py:500-579 | an event in between leaves only its type |
| Bridge.OpeningTells | backend/app/copilot_runtime/bridge.py:866-890 | an opening event keeps its own payload and gains public metadata for other keys |
| Bridge.ExtractTells | backend/app/copilot_runtime/bridge.py:500-579 | an opening event leaves its thinking metadata and its type in an open run, and other metadata as they were |
| Bridge.StartTells | backend/app/copilot_runtime/bridge.py:500-579 | the message id of a run is the one its start gives, or else is made of the run id |
| Bridge.PreemptiveTells | backend/app/copilot_runtime/bridge.py:479-498 | what the event of a run cancelled before its start carries |
| Bridge.SettledTells | backend/app/copilot_runtime/bridge.py:427-438 | a stream without a verdict fails its run with one code; one that raised changes nothing more |
| Bridge.MetadataHidesRequest | backend/app/copilot_runtime/bridge.py:500-579 | a cancel call between the start and the metadata event: the run shows as streaming with the request kept |
| Bridge.LoopText | backend/app/copilot_runtime/bridge.py:500-509 | the log's text grows by exactly the text of the forwarded events |
| Bridge.LoopReply | backend/app/copilot_runtime/bridge.py:520-537 | the stored reply is that of the last completed event that carries one |
| Bridge.RunBridge.Handle | backend/app/copilot_runtime/bridge.py:500-579 | records an event and brings one run's status in step; no other run changes |
| Bridge.RunBridge.StreamRun | backend/app/copilot_runtime/bridge.py:387-438 | drains a stream over the store: yielded events and final run as specified, all other runs untouched |
| History.ResolveInterruptedText | backend/app/copilot_runtime/session_store.py:487-499 | the stored reply, else the log's text, stripped, none if blank |
| History.ResolveAwaitingText | backend/app/copilot_runtime/session_store.py:511-531 | the prompt of the latest log entry that offers one |
| History.BuildMessageHistory | backend/app/copilot_runtime/execution_support.py:58-71 | succeeds iff roles alternate, keeping order and length, and otherwise names the first message out of turn |
| History.HistoryAccepted | backend/app/copilot_runtime/session_store.py:113-164 | with user requests a listing's history is accepted iff no run showing a lone user message is followed by a run that shows anything |
| History.RejectionStays | backend/app/copilot_runtime/execution_support.py:58-71 | no runs that come after a rejected history make it acceptable |
| History.LoneQuestionBlocks | backend/app/copilot_runtime/execution_support.py:58-71 | a failed run without a reply, followed by an answered one: the history is rejected |
| History.LoneUserMessage | backend/app/copilot_runtime/session_store.py:113-164 | which runs show a lone user message |
| History.MessagesShown | backend/app/copilot_runtime/session_store.py:113-164 | what a run shows: nothing while open or without text; its request with role, stripped text and creation time; then, at its end, its stored reply or the text of its log, stripped; a completed run without a reply shows nothing |
| History.PromptShown | backend/app/copilot_runtime/session_store.py:511-531 | a run that waits for a form shows the prompt last offered, or else only its request |
| History.ThreadShows | backend/app/copilot_runtime/session_store.py:397-405 | a thread's list is what its runs show, run by run in their order |
| History.ThreadHistory | backend/app/copilot_runtime/session_store.py:397-405 | the same criterion for a thread's messages, in order of creation and then of id |
| EndToEnd.RunSettles | backend/app/copilot_runtime/bridge.py:387-438 | a run is completed iff its execution was undisturbed (every check answered no, nothing unsupported, output produced), and left open iff a cancellation escaped |
| EndToEnd.LoggedText | backend/app/copilot_runtime/bridge.py:500-509 | the log's text is the assistant text produced up to where publishing stopped |
| EndToEnd.PublishedIsObserved | backend/app/copilot_runtime/execution_event_graph.py:233-235 | when publishing gets through, that is all the text the buffer observed |
| EndToEnd.ReplyShown | backend/app/copilot_runtime/session_store.py:475-499 | the messages of a drained run: its request, then the output of a completed run, or the published text of a failed or cancelled one that does not wait for a form, stripped, as the assistant's |
| EndToEnd.LoggedNumbers | backend/app/copilot_runtime/session_store.py:319-333 | the log's numbers are the streamed ones iff preparation does not fail behind the metadata event and publishing is not cut off |
| EndToEnd.AgentRunSettles | backend/app/copilot_runtime/runs/message_run_services.py:537-610 | nothing an agent stream emits is unsupported, so only failure or a vanished client disturbs a run |
| Cancellation.LoopRequested | backend/app/copilot_runtime/bridge.py:440-452 | until a terminal event the cancellation flag is set exactly by the cancel calls so far |
| Cancellation.FateOfRun | backend/app/copilot_runtime/runs/message_run_services.py:575-597 | a run whose agent answers is completed iff neither a vanished client nor a cancel call precedes its last check, cancelled iff one precedes an earlier check, and otherwise left open |
| EndToEnd.ModelTextShown | backend/app/copilot_runtime/session_store.py:113-164 | from the model to the chat: the assistant's message is the agent's output, or the very text the model streamed, stripped |
| EndToEnd.ReplyListed | backend/app/copilot_runtime/session_store.py:397-405 | these two messages stand next to each other in the thread's list |
| ThinkingProperties.NormalFormOnce | backend/app/copilot_runtime/thinking_adapter.py:1232-1269 | normalising a selection twice is normalising it once |
| ThinkingProperties.NormalFormKeepsOutcome | backend/app/copilot_runtime/thinking_adapter.py:742-878 | a selection and its normal form have the same outcome for every capability and route |
| ThinkingProperties.OffIsNone | backend/app/copilot_runtime/thinking_adapter.py:257-291 | under every alias of the unified series, `off`, `disabled` and `none` have one outcome |
| ThinkingProperties.AppliedExactly | backend/app/copilot_runtime/thinking_adapter.py:742-878 | applied iff settings are present iff the builder accepts an allowed normal form of the capability's series, which is then what is applied |
| ThinkingProperties.VerifiedApplies | backend/app/copilot_runtime/thinking_adapter.py:922-948 | on a verified route a listed value of the series is always applied and nothing else is |
| ThinkingSettings.VerifiedSettings | backend/app/copilot_runtime/thinking_adapter.py:416-424 | on a verified route the settings of a listed value are `reasoning_effort` with the value's own code, and nothing else |
| ThinkingSettings.SettingsByProvider | backend/app/copilot_runtime/thinking_adapter.py:562-587 | applied settings have exactly the key of their series, for the unified series that of the provider; without one nothing is applied |
| ThinkingSettings.OffExactly | backend/app/copilot_runtime/thinking_adapter.py:416-559 | settings switch thinking off iff the value means it; a fixed series sets nothing |
| ThinkingSettings.SettingsTellApart | backend/app/copilot_runtime/thinking_adapter.py:416-559 | two applied selections have the same settings iff they ask for the same; the only different values that do are `dynamic` and a budget of -1 |
| ThinkingSettings.SettingsRead | backend/app/copilot_runtime/thinking_adapter.py:416-559 | effort, level, budget, thoughts and switch read back from the settings are those of the value, in the provider's words |
| ThinkingSettings.BudgetsGrow | backend/app/copilot_runtime/thinking_adapter.py:455-508 | for Gemini models that take a number, the budget of a level grows with the level |
| ThinkingProperties.SelectedTokensAreNotClamped | backend/app/copilot_runtime/thinking_adapter.py:1205-1217 | any number of tokens is passed on as it is, to Gemini and to Anthropic |
| ThinkingProperties.ParsedInputOk | backend/app/copilot_runtime/thinking_adapter.py:590-666 | everything parsed from a raw override is well formed, budgets included |
| ThinkingParsing.SpelledParses | backend/app/copilot_runtime/thinking_adapter.py:1363-1392 | round trip: whatever spells out a value of a template is parsed as that value |
| ThinkingParsing.ParsesExactly | backend/app/copilot_runtime/thinking_adapter.py:1363-1392 | which raw values parse, and to which type, code, mode and tokens |
| ThinkingParsing.ParsedIsCanonical | backend/app/copilot_runtime/thinking_adapter.py:1363-1392 | only such values come out of the parser |
| ThinkingParsing.ParsedLabel | backend/app/copilot_runtime/thinking_adapter.py:1363-1392 | the label is the given one, stripped, or made of the value |
| ThinkingParsing.ItemsRead | backend/app/copilot_runtime/thinking_adapter.py:1284-1306 | a list is read item by item, in order |
| ThinkingParsing.OverrideRead | backend/app/copilot_runtime/thinking_adapter.py:622-666 | series, editor and listed values of an override, by the raw keys and the base series |
| ThinkingParsing.DefaultRead | backend/app/copilot_runtime/thinking_adapter.py:1307-1328 | the default is the template's own iff it parses, suits the editor and, for codes, is listed |
| ThinkingParsing.BudgetRead | backend/app/copilot_runtime/thinking_adapter.py:1330-1361 | a budget takes the numbers that fit, and the rest from its base |
| ThinkingParsing.VisibilityRead | backend/app/copilot_runtime/thinking_adapter.py:590-666 | what is kept of a visibility |
| ThinkingParsing.UnsupportedRead | backend/app/copilot_runtime/thinking_adapter.py:590-622 | an override that declares a model unsupported keeps visibility and details only |
| ThinkingParsing.ResolvedRead | backend/app/copilot_runtime/thinking_adapter.py:951-1082 | what a resolved series takes from its override and what from its base |
| ThinkingParsing.BudgetDefaultRead | backend/app/copilot_runtime/thinking_adapter.py:1137-1183 | a declared number of tokens is snapped into the series' budget, a mode is taken as it is |
| ThinkingParsing.VerifiedModels | backend/app/copilot_runtime/thinking_adapter.py:922-948 | which routes are verified, and for which series |
| ThinkingParsing.NormalTells | backend/app/copilot_runtime/thinking_adapter.py:1232-1269 | which selections have a normal form, and its series, code, mode and tokens |
| ThinkingParsing.ReasonTells | backend/app/copilot_runtime/thinking_adapter.py:742-878 | a selection that is not applied is refused for the first thing that stands in its way |
| ThinkingParsing.CapabilityTells | backend/app/copilot_runtime/thinking_adapter.py:669-740 | a verified route decides the capability, and else a usable override |
| ThinkingProperties.DefaultAccepted | backend/app/copilot_runtime/thinking_adapter.py:951-1004 | for every raw override that resolves to a discrete or fixed series, its own default is neither a mismatch nor a refused value |
| ThinkingProperties.DedupeKeepsCodes | backend/app/copilot_runtime/thinking_adapter.py:294-319 | de-duplication keeps every code |
| ThinkingProperties.BudgetDefaultRefused | backend/app/copilot_runtime/thinking_adapter.py:1084-1183 | a budget override's own default is refused iff the default it declares or inherits is a mode that it does not offer |
| ThinkingProperties.DynamicDefaultRefused | backend/app/copilot_runtime/thinking_adapter.py:1084-1183 | a concrete override for which it does |
| ThinkingProperties.DiscreteDefaultKept | backend/app/copilot_runtime/thinking_adapter.py:1195-1202 | a listed default keeps its meaning iff it is not rewritten or the first listed code means the same |
| ThinkingProperties.OffDefaultLost | backend/app/copilot_runtime/thinking_adapter.py:1195-1202 | a raw override that lists `low` and `off` with default `off`: the default no longer switches thinking off |
| ThinkingProperties.SupportDeclared | backend/app/copilot_runtime/thinking_adapter.py:590-622 | which raw values declare support, numbers equal to 1 or 0 included, and which raise |
| Thinking.ParseAllowedItems | backend/app/copilot_runtime/thinking_adapter.py:1284-1306 | keeps the items that parse and suit the editor |
| Thinking.DedupeValues | backend/app/copilot_runtime/thinking_adapter.py:305-319 | drops the later values of a code seen before |
| ThinkingBudget.ClampSnaps | backend/app/copilot_runtime/thinking_adapter.py:1407-1414 | the result is in range, on the grid or the maximum, and at most half a step from the clamped input |
| ThinkingBudget.ClampTies | backend/app/copilot_runtime/thinking_adapter.py:1407-1414 | half way between two points of the grid the even one is taken |
| ThinkingBudget.ClampGrows | backend/app/copilot_runtime/thinking_adapter.py:1407-1414 | snapping is monotone under round-half-to-even |
| ThinkingBudget.ClampIdempotent | backend/app/copilot_runtime/thinking_adapter.py:1407-1414 | snapping twice is snapping once |
| ThinkingBudget.ClampFixes | backend/app/copilot_runtime/thinking_adapter.py:1407-1414 | which inputs are left alone |
| Timeline.SyncCounts | backend/app/timeline_db.py:293-373 | for any table, inserted plus updated is the number of events and the row count changes by inserted minus deleted; ids are never re-used |
| Timeline.SyncSparesOthers | backend/app/timeline_db.py:293-373 | for any table, the rows of other sources are untouched, in order |
| Timeline.SyncReplaces | backend/app/timeline_db.py:293-373 | a source without duplicates becomes exactly the events; survivors keep id, progress and creation time |
| Timeline.UniqueAfterSync | backend/app/timeline_db.py:308-319 | it stays without duplicates iff no id new to the table is repeated |
| Timeline.SyncMeetsPurpose | backend/app/timeline_db.py:293-373 | for any table, the source's rows become the incoming events iff it had no duplicate ids and no id new to it is repeated |
| Timeline.DuplicateSurvives | backend/app/timeline_db.py:308-373 | two rows of one id and an empty sync: one row survives |
| Timeline.RepeatDuplicates | backend/app/timeline_db.py:308-319 | a new id twice: two rows |
| Timeline.SyncIdempotent | backend/app/timeline_db.py:293-373 | repeating a sync inserts and deletes nothing and changes update times only |
| Timeline.UpsertStores | backend/app/timeline_db.py:158-227 | one row holds what was given, no other changes, no duplicate appears, and the row is found again |
| Timeline.TimelineTable.Upsert | backend/app/timeline_db.py:158-227 | the table and the returned id are as specified |
| Timeline.TimelineTable.Delete | backend/app/timeline_db.py:284-290 | removes the row of an id and says whether there was one |
| Timeline.TimelineTable.Sync | backend/app/timeline_db.py:293-373 | commits the specified table and counts, or leaves the table as it was on an unacceptable event |
| Rewriter.RewriteIsSubstitution | frontend-copilot/scripts/fix-duplicate-strings.py:338-378 | for disjoint occurrences in any order, splicing from right to left is the simultaneous substitution on the original line |
| Rewriter.OverlapEatsReplacement | frontend-copilot/scripts/fix-duplicate-strings.py:361-376 | two occurrences: what is lost is exactly the overlap |
| Rewriter.OverlapSharesQuote | frontend-copilot/scripts/fix-duplicate-strings.py:228-243 | two literals without inner quotes overlap iff they are the same or share a quote |
| Rewriter.SharedQuoteCorrupts | frontend-copilot/scripts/fix-duplicate-strings.py:228-243 | the literals `'a'` and `', '` in `['a', 'b']`: the second name loses its first character and a quote is left over |
| Rewriter.DeclarationGetsBraces | frontend-copilot/scripts/fix-duplicate-strings.py:366-373 | the value of a declaration gets braces |
| Rewriter.FindsAll | frontend-copilot/scripts/fix-duplicate-strings.py:211-245 | the matches of a literal are genuine, apart, and leave none that overlaps no match |
| Rewriter.RewriteLine | frontend-copilot/scripts/fix-duplicate-strings.py:359-378 | the loop performs the planned splices and counts them |
| Rewriter.FreshName | frontend-copilot/scripts/fix-duplicate-strings.py:162-170 | terminates within one more than the names taken, with the first free candidate |
| Rewriter.AssignNames | frontend-copilot/scripts/fix-duplicate-strings.py:277-284 | all literals get different names |
| Rewriter.DefinitionMeans | frontend-copilot/scripts/fix-duplicate-strings.py:327-332 | a definition's value is the literal's source text |
| Rewriter.ConstantEqualsLiteral | frontend-copilot/scripts/fix-duplicate-strings.py:327-332 | the constant has the literal's value iff the literal has no escapes |
| Rewriter.EscapeDiffers | frontend-copilot/scripts/fix-duplicate-strings.py:327-332 | an escaped line break is one for which it has not |
| ProviderCatalog.BuildIndex | frontend-copilot/src/provider-catalog.ts:137-149 | the index maps every identifier to its last owner |
| ProviderCatalog.IndexLookup | frontend-copilot/src/provider-catalog.ts:86-94 | a query is normalised, and a blank one finds nothing |
| ProviderCatalog.ScanLookup | backend/app/copilot_runtime/provider_catalog.py:237-249 | the scan returns the first owner |
| ProviderCatalog.LookupsAgree | backend/app/copilot_runtime/provider_catalog.py:237-249 | both agree on every query iff no identifier belongs to two entries |
| SingleFlight.SingleService | frontend-copilot/electron/main.ts:295-335 | in every interleaving at most one creation is in flight, at most one ever succeeds, and all callers that return have the same service |
| SingleFlight.WhenACallCreates | frontend-copilot/electron/main.ts:295-304 | a call starts a creation iff all earlier ones failed and nothing is left to clean up |
| SingleFlight.RetryAfterFailure | frontend-copilot/electron/main.ts:330-334 | after a failed creation is cleaned up the next call tries again |
| SingleFlight.NobodyForgotten | frontend-copilot/electron/main.ts:300-334 | whoever waits can resume, or waits for the one creation in flight |
| SingleFlight.BackendHost.EnsureHostedBackendService | frontend-copilot/electron/main.ts:295-331 | a caller up to its first await |
| SingleFlight.BackendHost.SettleCreation | frontend-copilot/electron/main.ts:304-328 | the creation succeeds and sets the service, or fails |
| SingleFlight.BackendHost.ResumeCaller | frontend-copilot/electron/main.ts:330-334 | a caller after its await, with the starter's clean-up |

## Left out

- AgentStream.EventStream.RunAgent: takes the tool events of a run as inputs; the coordinator steps of the tools
  between them are those of `ToolGate`.
- ToolGate.ToolExecution.Conclude: keeps the phases of lifecycle events, not their titles and summaries; whether the
  sanitiser and the JSON encoder accept a result is a parameter of the outcome.
- Rewriter.ConstantEqualsLiteral: JavaScript escapes are a function of which only the laws needed are assumed.
- Bridge.RunBridge.StreamRun: the cancel and metadata calls that interleave with a stream are part of its input list.
- RunLifecycle.SortSorts: Python's `list.sort` is modelled by the order it produces, as an insertion sort.
- Threads of the store and entries of the approval table are values in maps, not objects; futures and timers are named
  by index, and the order in which a run's approvals are discarded is arbitrary.
- `create_run` and `create_thread` draw a new uuid when one is taken; here a taken generated id is refused instead.
- Cancellation of the orchestrator's own task while it prepares an execution, and generator abandonment.
- Preparation of an execution: route resolution, tool and skill snapshots, prompts. Its outcome is a parameter: a
  failure before or behind the metadata event, a preflight failure, or success.
- Reasoning suppression: the orchestrator only logs it and publishes the events all the same.
- The fallback for a bridge whose stored thinking selection cannot be restored, and debug logging throughout.
- Budgets beyond 2^53, where Python's division of integers is inexact; anchors, which are for display only.
- Timeouts given as strings or floats (`parse_tool_timeout_seconds`): the gate takes parsed numbers.
- The rewriter's choice of literals, name bases and insertion line, and template literals with substitutions.
- HTTP, SSE encoding, SQLite itself, Electron windows, React, provider SDKs, MCP calls, flat request validation, file
  readers, migrations and metrics: input and output, or easy members only.
- `SQLiteSessionStore`: the in-memory store is modelled.
