/**
 The whole pipeline: what the agent's event buffer records, published by the orchestrator, recorded
 by the bridge among cancel and metadata calls, and shown in the chat history.
 */
module EndToEnd {
  import opened Common
  import opened ExecutionEvents
  import opened RunEvents
  import opened Orchestrator
  import opened SessionStore
  import opened Bridge
  import opened History
  import opened Text
  import AgentStream
  import RunLifecycle

  /** One execution: what happened in the agent, around it, and to its client. */
  datatype Execution = Execution(
    ctx: Context,
    preparation: Preparation,
    ops: seq<Op>,
    outcome: AgentOutcome,
    unsupported: Failure,
    disconnected: nat -> bool)
  {
    function Trace(runId: string): seq<ExecEvent> {
      Output(Fresh(runId), [], ops)
    }

    function Streamed(runId: string): Stream {
      StreamEvents(ctx, preparation, Trace(runId), outcome, unsupported, disconnected)
    }

    function Driven(runId: string): Drive {
      MainDrive(ctx, preparation, Trace(runId), disconnected)
    }

    /** The agent records neither segment events nor the end of the run: those are for others to emit. */
    predicate Plain() {
      NoSegmentEvents(ops) && forall i :: 0 <= i < |ops| && ops[i].Event? ==> !EndsRun(ops[i].event)
    }
  }

  /** A run about to be streamed for the first time. */
  predicate Startable(run: RunState) {
    run.eventLog == [] && run.assistantText.None? && !run.status.IsTerminal()
  }

  lemma StepEndsNoRun(c: Core, op: Op)
    requires op.Event? ==> !EndsRun(op.event)
    ensures forall i :: 0 <= i < |Apply(c, op).events| ==> !EndsRun(Apply(c, op).events[i])
  {
  }

  lemma {:induction false} TraceEndsNoRun(c: Core, ops: seq<Op>)
    requires forall i :: 0 <= i < |ops| && ops[i].Event? ==> !EndsRun(ops[i].event)
    ensures var trace := ExecutionEvents.Trace(c, ops); forall i :: 0 <= i < |trace| ==> !EndsRun(trace[i])
    decreases |ops|
  {
    if ops != [] {
      var s := Apply(c, ops[0]);
      StepEndsNoRun(c, ops[0]);
      TraceEndsNoRun(s.core, ops[1..]);
      assert ExecutionEvents.Trace(c, ops) == s.events + ExecutionEvents.Trace(s.core, ops[1..]);
    }
  }

  // ---------------------------------------------------------- when a run completes

  function PublicCount(publications: seq<Publication>): nat {
    if publications == [] then 0 else (if publications[0].Public? then 1 else 0) + PublicCount(publications[1..])
  }

  /** Publishing gets through exactly when nothing is unsupported and no check finds the client gone. */
  lemma {:induction false} DriveExhausts(
    sequence: nat, publications: seq<Publication>, disconnected: nat -> bool, checks: nat)
    ensures var d := DriveFrom(sequence, publications, disconnected, checks);
            && (d.stop == Exhausted <==>
                  && Rejected !in publications
                  && forall i: nat :: checks <= i < checks + PublicCount(publications) ==> !disconnected(i))
            && (d.stop == Exhausted ==> d.checks == checks + PublicCount(publications))
    decreases |publications|
  {
    if publications != [] {
      var rest := publications[1..];
      assert publications == [publications[0]] + rest;
      if publications[0].Hidden? {
        DriveExhausts(sequence, rest, disconnected, checks);
      } else if publications[0].Public? {
        DriveExhausts(sequence + 1, rest, disconnected, checks + 1);
      }
    }
  }

  /** Each public event is checked once and the end of the agent run three times more. */
  predicate Undisturbed(x: Execution, runId: string) {
    var publications := Publications(x.ctx, x.Trace(runId));
    && x.preparation.Ready? && x.outcome.AgentOutput? && Rejected !in publications
    && forall i: nat :: i < PublicCount(publications) + 3 ==> !x.disconnected(i)
  }

  lemma {:induction false} NoTerminals(events: seq<RunEvent>)
    ensures Terminals(events) == 0 <==> forall i :: 0 <= i < |events| ==> !events[i].eventType.IsTerminal()
  {
    if events != [] {
      NoTerminals(events[1..]);
    }
  }

  lemma EndingCompletes(
    ctx: Context, drive: Drive, outcome: AgentOutcome, unsupported: Failure, disconnected: nat -> bool)
    requires !Ending(ctx, drive, outcome, unsupported, disconnected).escaped
    ensures var events := Ending(ctx, drive, outcome, unsupported, disconnected).events;
            var n := drive.checks;
            && events != []
            && var last := events[|events| - 1];
            && last.eventType.IsTerminal()
            && (last.eventType == RunCompletedType <==>
                  && drive.stop == Exhausted && outcome.AgentOutput?
                  && !disconnected(n) && !disconnected(n + 1) && !disconnected(n + 2))
            && (last.eventType == RunCompletedType ==> GetString(last.payload, "assistantText") == Some(outcome.text))
  {
  }

  lemma UndisturbedDrive(x: Execution, runId: string)
    requires x.preparation.Ready?
    ensures var d := x.Driven(runId);
            var n := d.checks;
            Undisturbed(x, runId) <==>
              && d.stop == Exhausted && x.outcome.AgentOutput?
              && !x.disconnected(n) && !x.disconnected(n + 1) && !x.disconnected(n + 2)
  {
    var d := x.Driven(runId);
    var publications := Publications(x.ctx, x.Trace(runId));
    DriveExhausts(|Opening(x.ctx, x.preparation)|, publications, x.disconnected, 0);
    if d.stop == Exhausted {
      var n := PublicCount(publications);
      assert n < n + 3 && n + 1 < n + 3 && n + 2 < n + 3;
    }
  }

  /** The last event is a completion, carrying the agent's output, for undisturbed executions only. */
  lemma LastEvent(x: Execution, runId: string)
    requires !x.Streamed(runId).escaped
    ensures var events := x.Streamed(runId).events;
            && events != []
            && var last := events[|events| - 1];
            && last.eventType.IsTerminal()
            && (last.eventType == RunCompletedType <==> Undisturbed(x, runId))
            && (Undisturbed(x, runId) ==> GetString(last.payload, "assistantText") == Some(x.outcome.text))
  {
    if x.preparation.Ready? {
      EndingCompletes(x.ctx, x.Driven(runId), x.outcome, x.unsupported, x.disconnected);
      UndisturbedDrive(x, runId);
    }
  }

  /** Nothing before the last event ends the run, and a stream out of which a cancellation escapes has no end. */
  lemma StreamShape(x: Execution, runId: string)
    requires x.Plain()
    ensures var s := x.Streamed(runId);
            && (s.escaped ==> Terminals(s.events) == 0 && !Undisturbed(x, runId))
            && (!s.escaped ==> s.events != [] && Terminals(s.events[..|s.events| - 1]) == 0)
  {
    var s := x.Streamed(runId);
    OutputIsTrace(Fresh(runId), [], x.ops);
    TraceEndsNoRun(Fresh(runId), x.ops);
    StreamTerminates(x.ctx, x.preparation, x.Trace(runId), x.outcome, x.unsupported, x.disconnected);
    if s.escaped {
      UndisturbedDrive(x, runId);
    } else {
      SplitLast(s.events);
    }
  }

  lemma SplitLast(events: seq<RunEvent>)
    requires events != [] && events[|events| - 1].eventType.IsTerminal()
    ensures Terminals(events[..|events| - 1]) == Terminals(events) - 1
  {
    var init, last := events[..|events| - 1], events[|events| - 1];
    assert events == init + [last];
    TerminalsAppend(init, [last]);
    OneEvent(last);
  }

  // --------------------------------------------------------------- main theorems

  /**
   However calls are interleaved with a run's events, the run is left completed exactly when the
   execution was undisturbed; open exactly when a cancellation escaped; failed or cancelled otherwise.
   */
  lemma RunSettles(
    hooks: Hooks, run: RunState, x: Execution, inputs: seq<(Input, int)>, start: int, end: int)
    requires Startable(run) && x.Plain() && Events(inputs) == x.Streamed(run.runId).events
    ensures var s := x.Streamed(run.runId);
            var p := Drained(hooks, run, inputs, s.escaped, start, end);
            && (p.run.status.Completed? <==> Undisturbed(x, run.runId))
            && (p.run.status.IsTerminal() <==> !s.escaped)
            && (!s.escaped ==> LastVerdict(s.events) == Some(p.run.status))
  {
    var s := x.Streamed(run.runId);
    var p := Drained(hooks, run, inputs, s.escaped, start, end);
    StreamShape(x, run.runId);
    DrainedKeeps(hooks, run, inputs, s.escaped, start, end);
    if s.escaped {
      NoTerminals(s.events);
      NoVerdict(p.yielded);
      EscapeLeavesRunOpen(hooks, run, inputs, start, end);
    } else {
      LastEvent(x, run.runId);
      DrainedStreamSettles(hooks, run, inputs, start, end);
    }
  }

  lemma {:induction false} NoVerdict(events: seq<RunEvent>)
    requires forall i :: 0 <= i < |events| ==> !events[i].eventType.IsTerminal()
    ensures LastVerdict(events).None?
  {
    if events != [] {
      NoVerdict(events[..|events| - 1]);
    }
  }

  /** The text the agent produced up to the point where publishing stopped. */
  function PublishedText(x: Execution, runId: string): string {
    if x.preparation.Ready? && |x.Driven(runId).taken| <= |x.Trace(runId)|
    then DeltaText(x.Trace(runId)[..|x.Driven(runId).taken|], Assistant)
    else ""
  }

  /** All of the observed text is published unless publishing stops early. */
  lemma PublishedIsObserved(x: Execution, runId: string)
    requires x.Plain() && x.preparation.Ready? && x.Driven(runId).stop == Exhausted
    ensures PublishedText(x, runId) == Run(Fresh(runId), x.ops).Observed(Assistant)
  {
    var trace := x.Trace(runId);
    StreamText(x.ctx, x.preparation, trace, x.outcome, x.unsupported, x.disconnected);
    assert trace[..|trace|] == trace;
    TextIsConserved(runId, x.ops, Assistant);
  }

  /** Text is conserved from the agent's deltas to the run's log. */
  lemma LoggedText(
    hooks: Hooks, run: RunState, x: Execution, inputs: seq<(Input, int)>, escaped: bool, start: int, end: int)
    requires Startable(run) && Events(inputs) == x.Streamed(run.runId).events
    ensures LogText(Drained(hooks, run, inputs, escaped, start, end).run.eventLog) == PublishedText(x, run.runId)
  {
    StreamText(x.ctx, x.preparation, x.Trace(run.runId), x.outcome, x.unsupported, x.disconnected);
    DrainedKeeps(hooks, run, inputs, escaped, start, end);
  }

  lemma ReplyOfShape(events: seq<RunEvent>)
    requires events != [] && Terminals(events[..|events| - 1]) == 0
    ensures var last := events[|events| - 1];
            ReplyAfter(None, events) ==
              if last.eventType == RunCompletedType then GetString(last.payload, "assistantText") else None
  {
    var init := events[..|events| - 1];
    NoTerminals(init);
    forall i | 0 <= i < |init| ensures events[i].eventType != RunCompletedType {
      assert events[i] == init[i];
    }
    ReplyOfLast(events);
  }

  /** The reply stored with the run: the agent's output if the run completes, and otherwise none. */
  lemma StoredReply(x: Execution, runId: string)
    requires x.Plain() && !x.Streamed(runId).escaped
    ensures ReplyAfter(None, x.Streamed(runId).events)
         == if Undisturbed(x, runId) then Some(x.outcome.text) else None
  {
    StreamShape(x, runId);
    LastEvent(x, runId);
    ReplyOfShape(x.Streamed(runId).events);
  }

  lemma {:induction false} ReplyOfLast(events: seq<RunEvent>)
    requires events != []
    requires forall i :: 0 <= i < |events| - 1 ==> events[i].eventType != RunCompletedType
    ensures var last := events[|events| - 1];
            ReplyAfter(None, events) ==
              if last.eventType == RunCompletedType then GetString(last.payload, "assistantText") else None
  {
    if |events| == 1 {
      assert events[1..] == [];
    } else {
      ReplyOfLast(events[1..]);
    }
  }

  /**
   The chat of a run that ended as `r`: its request, and then the text, stripped, in the assistant's
   message. If there is no such text, a completed run shows nothing and another one its request.
   */
  predicate ChatShows(run: RunState, r: RunState, text: string) {
    var ms := ProjectedMessages(r);
    if Strip(text) != "" then |ms| == 2 && ShowsRequest(ms[0], run) && ShowsReply(ms[1], r, Strip(text))
    else if r.status.Completed? then ms == []
    else |ms| == 1 && ShowsRequest(ms[0], run)
  }

  lemma ChatOf(run: RunState, r: RunState, text: string)
    requires r.status.IsTerminal() && r.request == run.request && r.createdAt == run.createdAt
    requires Strip(run.request.content) != ""
    requires if r.status.Completed? then r.assistantText == Some(text)
             else !WaitsForForm(r) && r.assistantText.None? && LogText(r.eventLog) == text
    ensures ChatShows(run, r, text)
  {
    MessagesShown(r);
  }

  /** What a drained run is left with: its outcome, its stored reply and the text of its log. */
  lemma RunLeft(hooks: Hooks, run: RunState, x: Execution, inputs: seq<(Input, int)>, start: int, end: int)
    requires Startable(run) && x.Plain() && Events(inputs) == x.Streamed(run.runId).events
    requires !x.Streamed(run.runId).escaped
    ensures var r := Drained(hooks, run, inputs, false, start, end).run;
            && r.status.IsTerminal() && r.request == run.request && r.createdAt == run.createdAt
            && (r.status.Completed? <==> Undisturbed(x, run.runId))
            && r.assistantText == (if Undisturbed(x, run.runId) then Some(x.outcome.text) else None)
            && LogText(r.eventLog) == PublishedText(x, run.runId)
  {
    RunSettles(hooks, run, x, inputs, start, end);
    LoggedText(hooks, run, x, inputs, false, start, end);
    DrainedKeeps(hooks, run, inputs, false, start, end);
    StoredReply(x, run.runId);
  }

  lemma ReplyOf(r: RunState)
    requires r.status.IsTerminal()
    ensures r.status.Completed? ==> AssistantText(r) == Normalize(r.assistantText)
    ensures !r.status.Completed? && !AwaitsUserInput(r) && r.assistantText.None? ==>
      AssistantText(r) == Normalize(Some(LogText(r.eventLog)))
  {
  }

  /**
   The reply that the chat history shows: the agent's output for a completed run, and for a run
   that failed or was cancelled without waiting for a form the text published before, stripped.
   */
  lemma ReplyShown(
    hooks: Hooks, run: RunState, x: Execution, inputs: seq<(Input, int)>, start: int, end: int)
    requires Startable(run) && x.Plain() && Events(inputs) == x.Streamed(run.runId).events
    requires !x.Streamed(run.runId).escaped
    ensures var r := Drained(hooks, run, inputs, false, start, end).run;
            var reply := AssistantText(r);
            if Undisturbed(x, run.runId) then r.status.Completed? && reply == Normalize(Some(x.outcome.text))
            else (r.status.Failed? || r.status.Cancelled?)
                 && (!AwaitsUserInput(r) ==> reply == Normalize(Some(PublishedText(x, run.runId))))
    ensures var r := Drained(hooks, run, inputs, false, start, end).run;
            Strip(run.request.content) != "" ==>
              if Undisturbed(x, run.runId) then ChatShows(run, r, x.outcome.text)
              else !WaitsForForm(r) ==> ChatShows(run, r, PublishedText(x, run.runId))
  {
    RunLeft(hooks, run, x, inputs, start, end);
    var r := Drained(hooks, run, inputs, false, start, end).run;
    ReplyOf(r);
    if Strip(run.request.content) != "" && (Undisturbed(x, run.runId) || !WaitsForForm(r)) {
      ChatOf(run, r, if Undisturbed(x, run.runId) then x.outcome.text else PublishedText(x, run.runId));
    }
  }

  /** The log's numbers are the streamed ones exactly when no numbered event is lost. */
  lemma LoggedNumbers(
    hooks: Hooks, run: RunState, x: Execution, inputs: seq<(Input, int)>, escaped: bool, start: int, end: int)
    requires Startable(run) && Events(inputs) == x.Streamed(run.runId).events
    ensures var log := Drained(hooks, run, inputs, escaped, start, end).run.eventLog;
            var events := x.Streamed(run.runId).events;
            && |log| == |events|
            && ((forall k :: 0 <= k < |log| ==> log[k].sequence == events[k].sequence) <==>
                  !LosesNumber(x.ctx, x.preparation, x.Trace(run.runId), x.disconnected))
  {
    var p := Drained(hooks, run, inputs, escaped, start, end);
    var events := x.Streamed(run.runId).events;
    StreamNumbers(x.ctx, x.preparation, x.Trace(run.runId), x.outcome, x.unsupported, x.disconnected);
    RecordedNumbers(hooks, run, inputs, escaped, start, end);
    DrainedKeeps(hooks, run, inputs, escaped, start, end);
    assert NumberedFrom(p.yielded, 1) <==> NumberedFrom(events, 1);
  }

  // -------------------------------------------------- with the agent's stream

  predicate Cancels(e: ExecEvent) {
    e.ToolLifecycle? && e.phase.ToolCancelled?
  }

  lemma {:induction false} TraceCancelsNoTool(c: Core, ops: seq<Op>)
    requires forall i :: 0 <= i < |ops| && ops[i].Event? ==> !Cancels(ops[i].event)
    ensures var trace := ExecutionEvents.Trace(c, ops); forall i :: 0 <= i < |trace| ==> !Cancels(trace[i])
    decreases |ops|
  {
    if ops != [] {
      var s := Apply(c, ops[0]);
      StepCancelsNoTool(c, ops[0]);
      TraceCancelsNoTool(s.core, ops[1..]);
      assert ExecutionEvents.Trace(c, ops) == s.events + ExecutionEvents.Trace(s.core, ops[1..]);
    }
  }

  lemma StepCancelsNoTool(c: Core, op: Op)
    requires op.Event? ==> !Cancels(op.event)
    ensures forall i :: 0 <= i < |Apply(c, op).events| ==> !Cancels(Apply(c, op).events[i])
  {
  }

  lemma NothingRejected(ctx: Context, trace: seq<ExecEvent>)
    requires forall i :: 0 <= i < |trace| ==> !Cancels(trace[i])
    ensures Rejected !in Publications(ctx, trace)
  {
    forall i | 0 <= i < |trace| ensures Publications(ctx, trace)[i] != Rejected {
      assert !Cancels(trace[i]);
    }
  }

  /** The execution is that of an agent stream over the given model events. */
  predicate IsAgentRun(x: Execution, setup: AgentStream.Setup, events: seq<AgentStream.StreamEvent>, end: AgentStream.AgentEnd) {
    && x.ops == AgentStream.Ops(setup, AgentStream.Whole(setup, events, end).emissions)
    && (match AgentStream.Verdict(end)
        case Ok(text) => x.outcome == AgentOutput(text)
        case Err(CancelledRun) => x.outcome == AgentCancelled
        case Err(_) => x.outcome.AgentRaises?)
  }

  /** An agent's run is undisturbed unless it fails or its client goes away: no event is unsupported. */
  lemma AgentRunSettles(
    x: Execution, runId: string, setup: AgentStream.Setup, events: seq<AgentStream.StreamEvent>, end: AgentStream.AgentEnd)
    requires IsAgentRun(x, setup, events, end)
    ensures x.Plain()
    ensures x.Driven(runId).stop != Unsupported
    ensures Undisturbed(x, runId) <==>
      && x.preparation.Ready? && AgentStream.Verdict(end).Ok?
      && forall i: nat :: i < PublicCount(Publications(x.ctx, x.Trace(runId))) + 3 ==> !x.disconnected(i)
  {
    AgentStream.OpsArePlain(setup, AgentStream.Whole(setup, events, end).emissions);
    OutputIsTrace(Fresh(runId), [], x.ops);
    TraceCancelsNoTool(Fresh(runId), x.ops);
    NothingRejected(x.ctx, x.Trace(runId));
    DriveSupported(|Opening(x.ctx, x.preparation)|, Publications(x.ctx, x.Trace(runId)), x.disconnected, 0);
  }

  lemma {:induction false} DriveSupported(
    sequence: nat, publications: seq<Publication>, disconnected: nat -> bool, checks: nat)
    requires Rejected !in publications
    ensures DriveFrom(sequence, publications, disconnected, checks).stop != Unsupported
    decreases |publications|
  {
    if publications != [] {
      if publications[0].Hidden? {
        DriveSupported(sequence, publications[1..], disconnected, checks);
      } else if publications[0].Public? {
        DriveSupported(sequence + 1, publications[1..], disconnected, checks + 1);
      }
    }
  }

  /**
   From the model to the chat history: a run that is drained without its client going away shows
   the agent's output if it completes, and if it fails exactly the text the model streamed, stripped.
   */
  lemma ModelTextShown(
    hooks: Hooks, run: RunState, x: Execution, inputs: seq<(Input, int)>, start: int, end: int,
    setup: AgentStream.Setup, events: seq<AgentStream.StreamEvent>, agentEnd: AgentStream.AgentEnd)
    requires Startable(run) && IsAgentRun(x, setup, events, agentEnd) && x.preparation.Ready?
    requires Events(inputs) == x.Streamed(run.runId).events
    requires forall i: nat :: !x.disconnected(i)
    ensures var r := Drained(hooks, run, inputs, x.Streamed(run.runId).escaped, start, end).run;
            match AgentStream.Verdict(agentEnd)
            case Ok(text) => r.status.Completed? && AssistantText(r) == Normalize(Some(text))
            case Err(_) =>
              && (r.status.Failed? || r.status.Cancelled?)
              && (!AwaitsUserInput(r) ==>
                    AssistantText(r) == Normalize(Some(AgentStream.ReceivedText(events, Assistant))))
    ensures var r := Drained(hooks, run, inputs, x.Streamed(run.runId).escaped, start, end).run;
            Strip(run.request.content) != "" ==>
              match agentEnd
              case Finished(Some(text)) =>
                if Strip(text) != "" then ChatShows(run, r, text)
                else !WaitsForForm(r) ==> ChatShows(run, r, AgentStream.ReceivedText(events, Assistant))
              case _ => !WaitsForForm(r) ==> ChatShows(run, r, AgentStream.ReceivedText(events, Assistant))
  {
    AgentRunUndisturbed(x, run.runId, setup, events, agentEnd);
    ReplyShown(hooks, run, x, inputs, start, end);
    if agentEnd.Finished? && agentEnd.output.Some? && Strip(agentEnd.output.value) != "" {
      StripIdempotent(agentEnd.output.value);
    }
  }

  /** With its client there all the time, an agent's run is as undisturbed as the agent, and all its text is published. */
  lemma AgentRunUndisturbed(
    x: Execution, runId: string, setup: AgentStream.Setup, events: seq<AgentStream.StreamEvent>, end: AgentStream.AgentEnd)
    requires IsAgentRun(x, setup, events, end) && x.preparation.Ready? && forall i: nat :: !x.disconnected(i)
    ensures x.Plain() && !x.Streamed(runId).escaped
    ensures Undisturbed(x, runId) <==> AgentStream.Verdict(end).Ok?
    ensures AgentStream.Verdict(end).Ok? ==> x.outcome == AgentOutput(AgentStream.Verdict(end).value)
    ensures PublishedText(x, runId) == AgentStream.ReceivedText(events, Assistant)
  {
    AgentRunSettles(x, runId, setup, events, end);
    DriveExhausts(|Opening(x.ctx, x.preparation)|, Publications(x.ctx, x.Trace(runId)), x.disconnected, 0);
    NothingEscapes(x, runId);
    AgentTextPublished(x, runId, setup, events, end);
  }

  lemma NothingEscapes(x: Execution, runId: string)
    requires forall i: nat :: !x.disconnected(i)
    ensures !x.Streamed(runId).escaped && x.Driven(runId).stop != CutOff
  {
    DriveNotCut(|Opening(x.ctx, x.preparation)|, Publications(x.ctx, x.Trace(runId)), x.disconnected, 0);
  }

  lemma {:induction false} DriveNotCut(
    sequence: nat, publications: seq<Publication>, disconnected: nat -> bool, checks: nat)
    requires forall i: nat :: !disconnected(i)
    ensures DriveFrom(sequence, publications, disconnected, checks).stop != CutOff
    decreases |publications|
  {
    if publications != [] {
      if publications[0].Hidden? {
        DriveNotCut(sequence, publications[1..], disconnected, checks);
      } else if publications[0].Public? {
        DriveNotCut(sequence + 1, publications[1..], disconnected, checks + 1);
      }
    }
  }

  lemma AgentTextPublished(
    x: Execution, runId: string, setup: AgentStream.Setup, events: seq<AgentStream.StreamEvent>, end: AgentStream.AgentEnd)
    requires IsAgentRun(x, setup, events, end) && x.Plain()
    requires x.preparation.Ready? && x.Driven(runId).stop == Exhausted
    ensures PublishedText(x, runId) == AgentStream.ReceivedText(events, Assistant)
  {
    PublishedIsObserved(x, runId);
    AgentStream.QueueKeepsText(setup, runId, events, end, Assistant);
    TextIsConserved(runId, x.ops, Assistant);
  }

  /** What a run shows stands in its thread's list as it is, between what earlier and later runs show. */
  lemma ReplyListed(s: StoreState, threadId: string, j: nat, run: RunState, text: string)
    requires threadId in s.threads && RunLifecycle.ListRuns(s, threadId).Ok?
    requires j < |RunLifecycle.ListRuns(s, threadId).value| && Strip(text) != ""
    requires ChatShows(run, RunLifecycle.ListRuns(s, threadId).value[j], text)
    ensures var ms, r := ListMessages(s, threadId), RunLifecycle.ListRuns(s, threadId).value[j];
            exists k: nat :: k + 1 < |ms| && ShowsRequest(ms[k], run) && ShowsReply(ms[k + 1], r, Strip(text))
  {
    ThreadShows(s, threadId);
    var runs, ms := RunLifecycle.ListRuns(s, threadId).value, ListMessages(s, threadId);
    var before, shown := Flatten(runs[..j]), ProjectedMessages(runs[j]);
    assert ms == before + shown + Flatten(runs[j + 1..]);
    assert ms[|before|] == shown[0] && ms[|before| + 1] == shown[1];
  }
}
