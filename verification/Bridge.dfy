/**
 The bridge between the orchestrator's event stream and the session store: it records every event
 it forwards, keeps the run's status in step, and settles runs whose stream ends without a verdict.
 */
module Bridge {
  import opened Common
  import opened Text
  import opened RunEvents
  import opened SessionStore
  import opened History

  /** Thinking metadata found in a payload, a run's public metadata, and Python's `str`. */
  datatype Hooks = Hooks(extract: Payload -> Payload, describe: RunState -> Payload, show: Value -> string)

  /** What can happen between two yields; every input carries the time at which it is handled. */
  datatype Input = FromOrchestrator(event: RunEvent) | CancelCall | TouchCall(metadata: Payload)

  datatype Progress = Progress(run: RunState, yielded: seq<RunEvent>, terminalSeen: bool)

  // ------------------------------------------------------------ specification

  function TypeName(t: RunEventType): string {
    match t
    case RunStartedType => "run_started"
    case RunMetadataType => "run_metadata"
    case TextDeltaType => "text_delta"
    case ReasoningDeltaType => "reasoning_delta"
    case RunCompletedType => "run_completed"
    case RunFailedType => "run_failed"
    case RunCancelledType => "run_cancelled"
    case RunDiagnosticType => "run_diagnostic"
    case ToolEventType => "tool_event"
  }

  /** Opening events get the run's metadata for keys their payload does not have. */
  function Augment(hooks: Hooks, run: RunState, e: RunEvent): RunEvent {
    if e.eventType == RunStartedType || e.eventType == RunMetadataType
    then e.(payload := hooks.describe(run) + e.payload)
    else e
  }

  function AssistantMessageId(hooks: Hooks, runId: string, payload: Payload): Value {
    if "assistantMessageId" !in payload then VStr(runId + ":assistant")
    else match payload["assistantMessageId"]
      case VStr(s) => VStr(s)
      case v => VStr(hooks.show(v))
  }

  /** The status change that follows the recording of an event. */
  function StatusOp(hooks: Hooks, runId: string, e: RunEvent): RunOp {
    var last := map["last_event_type" := VStr(TypeName(e.eventType))];
    var terminal := last + map["terminal_event" := VStr(TypeName(e.eventType)), "terminal_payload" := VMap(e.payload)];
    match e.eventType
    case RunMetadataType => MarkStreaming(last + hooks.extract(e.payload))
    case RunCompletedType => MarkCompleted(GetString(e.payload, "assistantText"), terminal)
    case RunFailedType => MarkFailed(terminal)
    case RunCancelledType => MarkCancelled(terminal)
    case RunStartedType =>
      MarkStreaming(last + map["assistant_message_id" := AssistantMessageId(hooks, runId, e.payload)]
                    + hooks.extract(e.payload))
    case _ => Touch(last)
  }

  function Forward(hooks: Hooks, p: Progress, e: RunEvent, now: int): Progress {
    var event := Augment(hooks, p.run, e);
    var recorded := ApplyRun(p.run, Append(event.eventType, event.payload), now);
    Progress(ApplyRun(recorded, StatusOp(hooks, p.run.runId, event), now),
             p.yielded + [event],
             p.terminalSeen || event.eventType.IsTerminal())
  }

  function Advance(hooks: Hooks, p: Progress, input: Input, now: int): Progress {
    match input
    case FromOrchestrator(e) => Forward(hooks, p, e, now)
    case CancelCall => p.(run := ApplyRun(p.run, RequestCancel, now))
    case TouchCall(metadata) => p.(run := ApplyRun(p.run, Touch(metadata), now))
  }

  function Loop(hooks: Hooks, p: Progress, inputs: seq<(Input, int)>): Progress
    decreases |inputs|
  {
    if inputs == [] then p else Loop(hooks, Advance(hooks, p, inputs[0].0, inputs[0].1), inputs[1..])
  }

  function Begin(run: RunState, now: int): Progress {
    var metadata := map["assistant_message_id" := VStr(run.runId + ":assistant")];
    Progress(ApplyRun(run, MarkStreaming(metadata), now), [], false)
  }

  const NO_TERMINAL_METADATA: Payload := map[
    "terminal_event" := VStr("run_failed"),
    "terminal_payload" := VMap(map[
      "code" := VStr("agent_execution_failed"),
      "message" := VStr("Run stream ended without a terminal event."),
      "details" := VMap(map[])])]

  predicate CancelledBeforeStart(run: RunState) {
    run.status == Cancelled && run.startedAt.None?
  }

  function StoredMessageId(run: RunState): string {
    match GetString(run.metadata, "assistant_message_id")
    case Some(id) => if Strip(id) != "" then Strip(id) else run.runId + ":assistant"
    case None => run.runId + ":assistant"
  }

  function PreemptiveEvent(run: RunState): RunEvent {
    RunEvent(RunCancelledType, 1,
             map["assistantMessageId" := VStr(StoredMessageId(run)), "reason" := VStr("cancelled")])
  }

  /** A run whose stream ended without a verdict is marked failed. */
  function Settle(p: Progress, escaped: bool, end: int): Progress {
    if p.terminalSeen || escaped then p else p.(run := ApplyRun(p.run, MarkFailed(NO_TERMINAL_METADATA), end))
  }

  /** A drained stream; `escaped` says that the orchestrator's own iteration raised at its end. */
  function Drained(
    hooks: Hooks, run: RunState, inputs: seq<(Input, int)>, escaped: bool, start: int, end: int): Progress
  {
    if CancelledBeforeStart(run) then
      var e := PreemptiveEvent(run);
      Progress(ApplyRun(run, Append(e.eventType, e.payload), start), [e], true)
    else
      Settle(Loop(hooks, Begin(run, start), inputs), escaped, end)
  }

  // -------------------------------------------------------------- properties

  /** A log is an older one followed by exactly the yielded events, numbered on contiguously. */
  ghost predicate LogMirrors(before: seq<LogEntry>, log: seq<LogEntry>, yielded: seq<RunEvent>) {
    && before <= log && |log| == |before| + |yielded|
    && forall k :: 0 <= k < |yielded| ==>
        var entry := log[|before| + k];
        && entry.eventType == yielded[k].eventType && entry.payload == yielded[k].payload
        && entry.sequence == |before| + k + 1
  }

  /** Forwarding appends one log entry that says what the yielded event says. */
  lemma ForwardParts(hooks: Hooks, p: Progress, e: RunEvent, now: int)
    ensures var event, q := Augment(hooks, p.run, e), Forward(hooks, p, e, now);
            && q.run.eventLog == p.run.eventLog + [LogEntry(event.eventType, event.payload, |p.run.eventLog| + 1, now)]
            && q.yielded == p.yielded + [event]
            && event.eventType == e.eventType && event.sequence == e.sequence
            && (e.eventType == TextDeltaType ==> event == e)
  {
  }

  /** The wire name of the type that ends a run. */
  predicate NamesEnd(t: RunEventType, name: string) {
    || (t == RunCompletedType && name == "run_completed")
    || (t == RunFailedType && name == "run_failed")
    || (t == RunCancelledType && name == "run_cancelled")
  }

  /** What the event that ends a run leaves in its record. */
  lemma TerminalTells(hooks: Hooks, p: Progress, e: RunEvent, now: int)
    requires e.eventType.IsTerminal()
    ensures var run := Forward(hooks, p, e, now).run;
            && Augment(hooks, p.run, e) == e && run.terminalAt == Some(now)
            && Get(run.metadata, "terminal_payload") == VMap(e.payload)
            && Get(run.metadata, "terminal_event").VStr? && NamesEnd(e.eventType, Get(run.metadata, "terminal_event").s)
            && Get(run.metadata, "last_event_type") == Get(run.metadata, "terminal_event")
            && (e.eventType == RunCompletedType && Get(e.payload, "assistantText").VStr? ==>
                  run.assistantText == Some(Get(e.payload, "assistantText").s))
  {
  }

  /** Other events, but for those that open a run, leave its type there and nothing else. */
  lemma PassingTells(hooks: Hooks, p: Progress, e: RunEvent, now: int)
    requires !e.eventType.IsTerminal() && e.eventType != RunStartedType && e.eventType != RunMetadataType
    ensures var run := Forward(hooks, p, e, now).run;
            && Augment(hooks, p.run, e) == e
            && run.metadata - {"last_event_type"} == p.run.metadata - {"last_event_type"}
            && run.terminalAt == p.run.terminalAt && run.status == p.run.status
            && run.assistantText == p.run.assistantText
  {
  }

  /** An opening event keeps its own payload and gains the run's public metadata for other keys. */
  lemma OpeningTells(hooks: Hooks, p: Progress, e: RunEvent, now: int)
    requires e.eventType == RunStartedType || e.eventType == RunMetadataType
    ensures var event, public := Augment(hooks, p.run, e), hooks.describe(p.run);
            && event.eventType == e.eventType && event.sequence == e.sequence
            && event.payload.Keys == e.payload.Keys + public.Keys
            && (forall key :: key in e.payload ==> event.payload[key] == e.payload[key])
            && (forall key :: key in public && key !in e.payload ==> event.payload[key] == public[key])
  {
  }

  /** An opening event of an open run leaves what is extracted from it, and other metadata as they were. */
  lemma ExtractTells(hooks: Hooks, p: Progress, e: RunEvent, now: int)
    requires (e.eventType == RunStartedType || e.eventType == RunMetadataType) && !p.run.status.IsTerminal()
    ensures var extracted, metadata := hooks.extract(Augment(hooks, p.run, e).payload), Forward(hooks, p, e, now).run.metadata;
            && (forall key :: key in extracted ==> key in metadata && metadata[key] == extracted[key])
            && (forall key | key in p.run.metadata && key !in extracted ::
                  key == "last_event_type" || key == "assistant_message_id"
                  || (key in metadata && metadata[key] == p.run.metadata[key]))
            && ("last_event_type" !in extracted ==>
                  Get(metadata, "last_event_type")
                    == VStr(if e.eventType == RunStartedType then "run_started" else "run_metadata"))
  {
  }

  /** The message id of a run is the one its start gives, or else is made of the run's id. */
  lemma StartTells(hooks: Hooks, p: Progress, e: RunEvent, now: int)
    requires e.eventType == RunStartedType && !p.run.status.IsTerminal()
    requires "assistant_message_id" !in hooks.extract(Augment(hooks, p.run, e).payload)
    ensures var payload, id := Augment(hooks, p.run, e).payload,
                               Get(Forward(hooks, p, e, now).run.metadata, "assistant_message_id");
            if "assistantMessageId" !in payload then id == VStr(p.run.runId + ":assistant")
            else if payload["assistantMessageId"].VStr? then id == payload["assistantMessageId"]
            else id == VStr(hooks.show(payload["assistantMessageId"]))
  {
  }

  /** The event of a run that was cancelled before its start. */
  lemma PreemptiveTells(run: RunState)
    ensures var e, id := PreemptiveEvent(run), Get(run.metadata, "assistant_message_id");
            && e.eventType == RunCancelledType && e.sequence == 1 && Get(e.payload, "reason") == VStr("cancelled")
            && Get(e.payload, "assistantMessageId") ==
                 VStr(if id.VStr? && Strip(id.s) != "" then Strip(id.s) else run.runId + ":assistant")
  {
  }

  /** A run whose stream ended without a verdict fails with this code. */
  lemma SettledTells(p: Progress, end: int)
    requires !p.terminalSeen
    ensures var run := Settle(p, false, end).run;
            && run.status.Failed? && run.terminalAt == Some(end) && Settle(p, true, end) == p
            && Get(run.metadata, "terminal_payload").VMap?
            && Get(Get(run.metadata, "terminal_payload").m, "code") == VStr("agent_execution_failed")
            && Get(run.metadata, "terminal_event") == VStr("run_failed")
  {
  }

  lemma LogMirrorsExtend(
    before: seq<LogEntry>, log: seq<LogEntry>, yielded: seq<RunEvent>, entry: LogEntry, event: RunEvent)
    requires LogMirrors(before, log, yielded)
    requires entry.eventType == event.eventType && entry.payload == event.payload && entry.sequence == |log| + 1
    ensures LogMirrors(before, log + [entry], yielded + [event])
  {
    forall k | 0 <= k < |yielded| + 1
      ensures var at := (log + [entry])[|before| + k];
              && at.eventType == (yielded + [event])[k].eventType && at.payload == (yielded + [event])[k].payload
              && at.sequence == |before| + k + 1
    {
      if k < |yielded| {
        assert (log + [entry])[|before| + k] == log[|before| + k];
      }
    }
  }

  lemma AdvanceMirrors(hooks: Hooks, before: seq<LogEntry>, p: Progress, input: Input, now: int)
    requires LogMirrors(before, p.run.eventLog, p.yielded)
    ensures var p' := Advance(hooks, p, input, now); LogMirrors(before, p'.run.eventLog, p'.yielded)
  {
    if input.FromOrchestrator? {
      var event := Augment(hooks, p.run, input.event);
      ForwardParts(hooks, p, input.event, now);
      LogMirrorsExtend(before, p.run.eventLog, p.yielded,
                       LogEntry(event.eventType, event.payload, |p.run.eventLog| + 1, now), event);
    }
  }

  lemma {:induction false} LoopMirrors(hooks: Hooks, before: seq<LogEntry>, p: Progress, inputs: seq<(Input, int)>)
    requires LogMirrors(before, p.run.eventLog, p.yielded)
    ensures var p' := Loop(hooks, p, inputs); LogMirrors(before, p'.run.eventLog, p'.yielded)
    decreases |inputs|
  {
    if inputs != [] {
      AdvanceMirrors(hooks, before, p, inputs[0].0, inputs[0].1);
      LoopMirrors(hooks, before, Advance(hooks, p, inputs[0].0, inputs[0].1), inputs[1..]);
    }
  }

  /**
   At every yield the log is the old log plus exactly the events yielded so far: the statement is
   for every prefix of the inputs, so it covers streams that are never drained.
   */
  lemma LogAtEveryYield(hooks: Hooks, run: RunState, inputs: seq<(Input, int)>, start: int, n: nat)
    requires n <= |inputs|
    ensures var p := Loop(hooks, Begin(run, start), inputs[..n]);
            LogMirrors(run.eventLog, p.run.eventLog, p.yielded)
  {
    LoopMirrors(hooks, run.eventLog, Begin(run, start), inputs[..n]);
  }

  /** The same for a stream that is drained, also when it yields a single preemptive event. */
  lemma DrainedMirrors(
    hooks: Hooks, run: RunState, inputs: seq<(Input, int)>, escaped: bool, start: int, end: int)
    ensures var p := Drained(hooks, run, inputs, escaped, start, end);
            LogMirrors(run.eventLog, p.run.eventLog, p.yielded)
  {
    if !CancelledBeforeStart(run) {
      LoopMirrors(hooks, run.eventLog, Begin(run, start), inputs);
    }
  }

  /** With an empty log the recorded numbers are the streamed ones exactly for streams numbered from 1. */
  lemma RecordedNumbers(
    hooks: Hooks, run: RunState, inputs: seq<(Input, int)>, escaped: bool, start: int, end: int)
    requires run.eventLog == []
    ensures var p := Drained(hooks, run, inputs, escaped, start, end);
            && |p.run.eventLog| == |p.yielded|
            && ((forall k :: 0 <= k < |p.yielded| ==> p.run.eventLog[k].sequence == p.yielded[k].sequence)
                  <==> NumberedFrom(p.yielded, 1))
  {
    DrainedMirrors(hooks, run, inputs, escaped, start, end);
    var p := Drained(hooks, run, inputs, escaped, start, end);
    forall k | 0 <= k < |p.yielded| ensures p.run.eventLog[k].sequence == k + 1 {
      var event := p.yielded[k];
      assert p.run.eventLog[|run.eventLog| + k].payload == event.payload;
    }
  }

  function TerminalStatus(t: RunEventType): RunStatus
    requires t.IsTerminal()
  {
    match t
    case RunCompletedType => Completed
    case RunFailedType => Failed
    case RunCancelledType => Cancelled
  }

  /** The status announced by the last terminal event. */
  function LastVerdict(events: seq<RunEvent>): (verdict: Option<RunStatus>)
    ensures verdict.Some? ==> verdict.value.IsTerminal()
  {
    if events == [] then None
    else
      var last := events[|events| - 1];
      if last.eventType.IsTerminal() then Some(TerminalStatus(last.eventType)) else LastVerdict(events[..|events| - 1])
  }

  /** Between yields: a verdict, once given, is the run's status; a run without one has not ended by itself. */
  ghost predicate InStep(p: Progress, endedBefore: bool) {
    && (p.terminalSeen <==> LastVerdict(p.yielded).Some?)
    && (p.terminalSeen ==> p.run.status == LastVerdict(p.yielded).value)
    && (!p.terminalSeen ==> (p.run.status.IsTerminal() <==> endedBefore))
    && !p.run.status.Pending?
  }

  lemma VerdictSnoc(events: seq<RunEvent>, e: RunEvent)
    ensures LastVerdict(events + [e])
         == if e.eventType.IsTerminal() then Some(TerminalStatus(e.eventType)) else LastVerdict(events)
  {
    assert (events + [e])[..|events|] == events;
  }

  /** The status after an event: its verdict, or as it was, but for a restart of an open run. */
  lemma StatusAfter(hooks: Hooks, p: Progress, e: RunEvent, now: int)
    ensures var after := Forward(hooks, p, e, now).run.status;
            && (e.eventType.IsTerminal() ==> after == TerminalStatus(e.eventType))
            && (!e.eventType.IsTerminal() ==> after == p.run.status || (!p.run.status.IsTerminal() && after == Streaming))
  {
    ForwardParts(hooks, p, e, now);
  }

  lemma AdvanceInStep(hooks: Hooks, p: Progress, input: Input, now: int, endedBefore: bool)
    requires InStep(p, endedBefore)
    ensures InStep(Advance(hooks, p, input, now), endedBefore)
  {
    if input.FromOrchestrator? {
      ForwardParts(hooks, p, input.event, now);
      VerdictSnoc(p.yielded, Augment(hooks, p.run, input.event));
      StatusAfter(hooks, p, input.event, now);
    }
  }

  lemma {:induction false} LoopInStep(hooks: Hooks, p: Progress, inputs: seq<(Input, int)>, endedBefore: bool)
    requires InStep(p, endedBefore)
    ensures InStep(Loop(hooks, p, inputs), endedBefore)
    decreases |inputs|
  {
    if inputs != [] {
      AdvanceInStep(hooks, p, inputs[0].0, inputs[0].1, endedBefore);
      LoopInStep(hooks, Advance(hooks, p, inputs[0].0, inputs[0].1), inputs[1..], endedBefore);
    }
  }

  /**
   However cancel and metadata calls are interleaved, a drained stream leaves the run with the
   status of its last terminal event, or failed when there was none.
   */
  lemma DrainedStreamSettles(hooks: Hooks, run: RunState, inputs: seq<(Input, int)>, start: int, end: int)
    ensures var p := Drained(hooks, run, inputs, false, start, end);
            var verdict := LastVerdict(p.yielded);
            p.run.status == if verdict.Some? then verdict.value else Failed
  {
    if CancelledBeforeStart(run) {
      var e := PreemptiveEvent(run);
      assert LastVerdict([e]) == Some(Cancelled);
    } else {
      LoopInStep(hooks, Begin(run, start), inputs, run.status.IsTerminal());
    }
  }

  /** When the orchestrator's iteration raises, a run without a verdict that had not ended stays open. */
  lemma EscapeLeavesRunOpen(hooks: Hooks, run: RunState, inputs: seq<(Input, int)>, start: int, end: int)
    requires !run.status.IsTerminal()
    ensures var p := Drained(hooks, run, inputs, true, start, end);
            p.run.status.IsTerminal() <==> LastVerdict(p.yielded).Some?
  {
    LoopInStep(hooks, Begin(run, start), inputs, false);
  }

  /**
   A requested cancellation outlasts every event, but the status does not show it any more after
   an event that marks the run as streaming.
   */
  lemma RequestOutlastsStatus(hooks: Hooks, p: Progress, e: RunEvent, now: int)
    requires p.run.status.CancellationRequested? && p.run.cancelRequested
    ensures var run := Forward(hooks, p, e, now).run;
            && run.cancelRequested
            && (run.status.Streaming? <==> e.eventType == RunStartedType || e.eventType == RunMetadataType)
            && (run.status.CancellationRequested? <==> !run.status.Streaming? && !e.eventType.IsTerminal())
  {
    ForwardParts(hooks, p, e, now);
  }

  /** A cancel call between the start and the metadata event: the run shows as streaming again. */
  lemma MetadataHidesRequest(hooks: Hooks, request: RunInput, metadata: Payload)
    ensures var e := RunEvent(RunMetadataType, 2, metadata);
            var run := NewRun("run", "thread", request, map[], 0);
            var p := Loop(hooks, Begin(run, 1), [(CancelCall, 2), (FromOrchestrator(e), 3)]);
            p.run.cancelRequested && p.run.status.Streaming?
  {
    var e := RunEvent(RunMetadataType, 2, metadata);
    var begun := Begin(NewRun("run", "thread", request, map[], 0), 1);
    var asked := Advance(hooks, begun, CancelCall, 2);
    var inputs: seq<(Input, int)> := [(CancelCall, 2), (FromOrchestrator(e), 3)];
    assert asked.run.status.CancellationRequested? && asked.run.cancelRequested;
    RequestOutlastsStatus(hooks, asked, e, 3);
    assert |inputs[1..]| == 1 && |inputs[1..][1..]| == 0;
    assert Loop(hooks, begun, inputs) == Loop(hooks, asked, inputs[1..]) == Loop(hooks, Forward(hooks, asked, e, 3), []);
  }

  // -------------------------------------------------------------------- text

  /** The orchestrator's events among the inputs. */
  function Events(inputs: seq<(Input, int)>): seq<RunEvent> {
    if inputs == [] then []
    else (if inputs[0].0.FromOrchestrator? then [inputs[0].0.event] else []) + Events(inputs[1..])
  }

  lemma AdvanceText(hooks: Hooks, p: Progress, input: Input, now: int)
    ensures LogText(Advance(hooks, p, input, now).run.eventLog)
         == LogText(p.run.eventLog) + StreamedText(Events([(input, now)]))
  {
    assert [(input, now)][1..] == [];
    if input.FromOrchestrator? {
      var e, event := input.event, Augment(hooks, p.run, input.event);
      var entry := LogEntry(event.eventType, event.payload, |p.run.eventLog| + 1, now);
      ForwardParts(hooks, p, e, now);
      LogTextAppend(p.run.eventLog, [entry]);
      OneEvent(e);
      assert [entry][1..] == [];
    }
  }

  /** The log keeps the text of the orchestrator's events, whatever calls come in between. */
  lemma {:induction false} LoopText(hooks: Hooks, p: Progress, inputs: seq<(Input, int)>)
    ensures LogText(Loop(hooks, p, inputs).run.eventLog) == LogText(p.run.eventLog) + StreamedText(Events(inputs))
    decreases |inputs|
  {
    if inputs != [] {
      var first := (inputs[0].0, inputs[0].1);
      var q := Advance(hooks, p, first.0, first.1);
      LoopText(hooks, q, inputs[1..]);
      AdvanceText(hooks, p, first.0, first.1);
      EventsCons(inputs);
      StreamedTextAppend(Events([first]), Events(inputs[1..]));
      Associates(LogText(p.run.eventLog), StreamedText(Events([first])), StreamedText(Events(inputs[1..])));
    }
  }

  lemma EventsCons(inputs: seq<(Input, int)>)
    requires inputs != []
    ensures Events(inputs) == Events([inputs[0]]) + Events(inputs[1..])
  {
    assert [inputs[0]][1..] == [];
  }

  /** The reply a run is left with: that of the last completed event that carries one. */
  function ReplyAfter(text: Option<string>, events: seq<RunEvent>): Option<string>
    decreases |events|
  {
    if events == [] then text
    else
      var e := events[0];
      var given := if e.eventType == RunCompletedType then GetString(e.payload, "assistantText") else None;
      ReplyAfter(if given.Some? then given else text, events[1..])
  }

  lemma AdvanceReply(hooks: Hooks, p: Progress, input: Input, now: int)
    ensures Advance(hooks, p, input, now).run.assistantText
         == ReplyAfter(p.run.assistantText, if input.FromOrchestrator? then [input.event] else [])
    ensures Advance(hooks, p, input, now).run.request == p.run.request
    ensures Advance(hooks, p, input, now).run.createdAt == p.run.createdAt
  {
    if input.FromOrchestrator? {
      assert [input.event][1..] == [];
    }
  }

  lemma ReplyAfterOne(text: Option<string>, e: RunEvent, rest: seq<RunEvent>)
    ensures ReplyAfter(text, [e] + rest) == ReplyAfter(ReplyAfter(text, [e]), rest)
  {
    assert ([e] + rest)[1..] == rest && [e][1..] == [];
  }

  lemma {:induction false} LoopReply(hooks: Hooks, p: Progress, inputs: seq<(Input, int)>)
    ensures Loop(hooks, p, inputs).run.assistantText == ReplyAfter(p.run.assistantText, Events(inputs))
    ensures Loop(hooks, p, inputs).run.request == p.run.request
    ensures Loop(hooks, p, inputs).run.createdAt == p.run.createdAt
    decreases |inputs|
  {
    if inputs != [] {
      var input, now := inputs[0].0, inputs[0].1;
      AdvanceReply(hooks, p, input, now);
      LoopReply(hooks, Advance(hooks, p, input, now), inputs[1..]);
      if input.FromOrchestrator? {
        ReplyAfterOne(p.run.assistantText, input.event, Events(inputs[1..]));
      } else {
        assert Events(inputs) == Events(inputs[1..]);
      }
    }
  }

  lemma {:induction false} ReplyUnlessCompleted(text: Option<string>, events: seq<RunEvent>)
    requires forall i :: 0 <= i < |events| ==> events[i].eventType != RunCompletedType
    ensures ReplyAfter(text, events) == text
    decreases |events|
  {
    if events != [] {
      ReplyUnlessCompleted(text, events[1..]);
    }
  }

  /** The yielded events have the types and the numbers of the orchestrator's. */
  ghost predicate SameOutline(a: seq<RunEvent>, b: seq<RunEvent>) {
    |a| == |b| && forall i :: 0 <= i < |a| ==> a[i].eventType == b[i].eventType && a[i].sequence == b[i].sequence
  }

  lemma OutlineCons(before: seq<RunEvent>, all: seq<RunEvent>, event: RunEvent, e: RunEvent, rest: seq<RunEvent>)
    requires before + [event] <= all && SameOutline(all[|before| + 1..], rest)
    requires event.eventType == e.eventType && event.sequence == e.sequence
    ensures before <= all && SameOutline(all[|before|..], [e] + rest)
  {
    assert all[|before|] == (before + [event])[|before|];
    assert all[|before|..] == [event] + all[|before| + 1..];
  }

  lemma CallYieldsNothing(hooks: Hooks, p: Progress, inputs: seq<(Input, int)>)
    requires inputs != [] && !inputs[0].0.FromOrchestrator?
    ensures Events(inputs) == Events(inputs[1..])
    ensures Advance(hooks, p, inputs[0].0, inputs[0].1).yielded == p.yielded
  {
  }

  lemma {:induction false} LoopOutline(hooks: Hooks, p: Progress, inputs: seq<(Input, int)>)
    ensures p.yielded <= Loop(hooks, p, inputs).yielded
    ensures SameOutline(Loop(hooks, p, inputs).yielded[|p.yielded|..], Events(inputs))
    decreases |inputs|
  {
    if inputs != [] {
      var input, now := inputs[0].0, inputs[0].1;
      var q := Advance(hooks, p, input, now);
      LoopOutline(hooks, q, inputs[1..]);
      if input.FromOrchestrator? {
        ForwardParts(hooks, p, input.event, now);
        OutlineCons(p.yielded, Loop(hooks, q, inputs[1..]).yielded, Augment(hooks, p.run, input.event), input.event,
                    Events(inputs[1..]));
      } else {
        CallYieldsNothing(hooks, p, inputs);
      }
    }
  }

  lemma SettleKeeps(p: Progress, escaped: bool, end: int)
    ensures var q := Settle(p, escaped, end);
            && q.yielded == p.yielded && q.run.eventLog == p.run.eventLog
            && q.run.assistantText == p.run.assistantText && q.run.request == p.run.request
            && q.run.createdAt == p.run.createdAt
  {
  }

  lemma BeginKeeps(run: RunState, start: int)
    ensures var p := Begin(run, start);
            && p.yielded == [] && p.run.eventLog == run.eventLog
            && p.run.assistantText == run.assistantText && p.run.request == run.request
            && p.run.createdAt == run.createdAt
  {
  }

  /** What a stream that is not cancelled before its start leaves of the orchestrator's events. */
  lemma DrainedKeeps(
    hooks: Hooks, run: RunState, inputs: seq<(Input, int)>, escaped: bool, start: int, end: int)
    requires !CancelledBeforeStart(run)
    ensures var p := Drained(hooks, run, inputs, escaped, start, end);
            && SameOutline(p.yielded, Events(inputs))
            && LogText(p.run.eventLog) == LogText(run.eventLog) + StreamedText(Events(inputs))
            && p.run.assistantText == ReplyAfter(run.assistantText, Events(inputs))
            && p.run.request == run.request && p.run.createdAt == run.createdAt
  {
    var begun := Begin(run, start);
    var p := Loop(hooks, begun, inputs);
    BeginKeeps(run, start);
    LoopText(hooks, begun, inputs);
    LoopReply(hooks, begun, inputs);
    LoopOutline(hooks, begun, inputs);
    assert p.yielded[0..] == p.yielded;
    SettleKeeps(p, escaped, end);
  }

  // --------------------------------------------------------------- the class

  lemma UpdatedTwice(before: map<string, RunState>, runId: string, run: RunState, next: RunState)
    ensures before[runId := run][runId := next] == before[runId := next]
  {
  }

  class RunBridge {
    const store: InMemoryStore
    const hooks: Hooks

    constructor (store: InMemoryStore, hooks: Hooks)
      ensures this.store == store && this.hooks == hooks
    {
      this.store, this.hooks := store, hooks;
    }

    /** The store knows the run under its stripped id. */
    ghost predicate Knows(runId: string)
      reads this, store, store.runs.Values
    {
      store.Valid() && runId in store.runs && Strip(runId) == runId && runId != ""
    }

    /** The store's runs are those of an earlier moment, but for one. */
    ghost predicate Holds(runId: string, before: map<string, RunState>, run: RunState)
      reads this, store, store.runs.Values
    {
      Knows(runId) && run.runId == runId && store.Contents().runs == before[runId := run]
    }

    method Update(runId: string, op: RunOp, now: int, ghost before: map<string, RunState>, ghost run: RunState)
      requires Holds(runId, before, run)
      modifies store`threads, store.runs.Values
      ensures Holds(runId, before, ApplyRun(run, op, now)) && store.runs == old(store.runs)
    {
      assert store.Contents().runs[runId] == run;
      UpdatedTwice(before, runId, run, ApplyRun(run, op, now));
      var r := store.ChangeRecord(runId, op, now);
    }

    /** Records an event and brings the run's status in step with it. */
    method Handle(runId: string, e: RunEvent, now: int, ghost before: map<string, RunState>, ghost p: Progress)
      returns (event: RunEvent)
      requires Holds(runId, before, p.run)
      modifies store`threads, store.runs.Values
      ensures Holds(runId, before, Forward(hooks, p, e, now).run) && store.runs == old(store.runs)
      ensures event == Augment(hooks, p.run, e)
    {
      assert store.Contents().runs[runId] == p.run;
      event := Augment(hooks, store.runs[runId].State(), e);
      Update(runId, Append(event.eventType, event.payload), now, before, p.run);
      ghost var recorded := ApplyRun(p.run, Append(event.eventType, event.payload), now);
      Update(runId, StatusOp(hooks, runId, event), now, before, recorded);
    }

    method Serve(runId: string, input: Input, now: int, ghost before: map<string, RunState>, ghost p: Progress)
      returns (events: seq<RunEvent>)
      requires Holds(runId, before, p.run)
      modifies store`threads, store.runs.Values
      ensures var q := Advance(hooks, p, input, now);
              && Holds(runId, before, q.run) && q.yielded == p.yielded + events
              && q.terminalSeen == (p.terminalSeen || (events != [] && events[0].eventType.IsTerminal()))
      ensures store.runs == old(store.runs)
    {
      match input
      case FromOrchestrator(e) =>
        var event := Handle(runId, e, now, before, p);
        events := [event];
      case CancelCall =>
        Update(runId, RequestCancel, now, before, p.run);
        events := [];
      case TouchCall(metadata) =>
        Update(runId, Touch(metadata), now, before, p.run);
        events := [];
    }

    /**
     Drains a stream. Only the streamed run changes, to what `Drained` says, and the events are
     handed on in the order in which they are recorded.
     */
    method StreamRun(runId: string, inputs: seq<(Input, int)>, escaped: bool, start: int, end: int)
      returns (yielded: seq<RunEvent>)
      requires Knows(runId)
      modifies store`threads, store.runs.Values
      ensures Knows(runId) && store.runs == old(store.runs)
      ensures var p := Drained(hooks, old(store.runs[runId].State()), inputs, escaped, start, end);
              && yielded == p.yielded
              && store.Contents().runs == old(store.Contents().runs)[runId := p.run]
    {
      ghost var before := store.Contents().runs;
      var run := store.runs[runId].State();
      assert before[runId := run] == before;
      if CancelledBeforeStart(run) {
        var e := PreemptiveEvent(run);
        Update(runId, Append(e.eventType, e.payload), start, before, run);
        return [e];
      }
      Update(runId, MarkStreaming(map["assistant_message_id" := VStr(runId + ":assistant")]), start, before, run);
      var terminalSeen;
      ghost var p;
      yielded, terminalSeen, p := StreamLoop(runId, inputs, before, Begin(run, start));
      if !terminalSeen && !escaped {
        Update(runId, MarkFailed(NO_TERMINAL_METADATA), end, before, p.run);
      }
    }

    method StreamLoop(
      runId: string, inputs: seq<(Input, int)>, ghost before: map<string, RunState>, ghost begun: Progress)
      returns (yielded: seq<RunEvent>, terminalSeen: bool, ghost p: Progress)
      requires Holds(runId, before, begun.run) && begun.yielded == [] && !begun.terminalSeen
      modifies store`threads, store.runs.Values
      ensures p == Loop(hooks, begun, inputs)
      ensures Holds(runId, before, p.run) && store.runs == old(store.runs)
      ensures yielded == p.yielded && terminalSeen == p.terminalSeen
    {
      terminalSeen, yielded, p := false, [], begun;
      for i := 0 to |inputs|
        invariant Holds(runId, before, p.run) && store.runs == old(store.runs)
        invariant p.yielded == yielded && p.terminalSeen == terminalSeen
        invariant Loop(hooks, begun, inputs) == Loop(hooks, p, inputs[i..])
      {
        assert inputs[i..][0] == inputs[i] && inputs[i..][1..] == inputs[i + 1..];
        var events := Serve(runId, inputs[i].0, inputs[i].1, before, p);
        p := Advance(hooks, p, inputs[i].0, inputs[i].1);
        if events != [] && events[0].eventType.IsTerminal() {
          terminalSeen := true;
        }
        yielded := yielded + events;
      }
    }
  }
}
