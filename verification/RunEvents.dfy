/** The public run events, their numbering factory, and the projection of execution events. */
module RunEvents {
  import opened Common
  import opened ExecutionEvents

  datatype RunEventType =
    | RunStartedType
    | RunMetadataType
    | TextDeltaType
    | ReasoningDeltaType
    | RunCompletedType
    | RunFailedType
    | RunCancelledType
    | RunDiagnosticType
    | ToolEventType
  {
    predicate IsTerminal() {
      RunCompletedType? || RunFailedType? || RunCancelledType?
    }
  }

  datatype RunEvent = RunEvent(eventType: RunEventType, sequence: nat, payload: Payload)

  datatype ProjectionError = UnsupportedEvent(event: ExecEvent)

  /** The projector's configuration; `completion` is what it adds to the completed event. */
  datatype Context = Context(assistantMessageId: string, completion: Payload)

  /** Numbers events of one run 1, 2, ... in the order in which they are built. */
  class RunEventFactory {
    var sequence: nat

    constructor ()
      ensures sequence == 0
    {
      sequence := 0;
    }

    method Build(eventType: RunEventType, payload: Payload) returns (e: RunEvent)
      modifies this
      ensures sequence == old(sequence) + 1
      ensures e == RunEvent(eventType, sequence, payload)
    {
      sequence := sequence + 1;
      e := RunEvent(eventType, sequence, payload);
    }
  }

  /** What becomes of an execution event: nothing, one public event, or an error. */
  datatype Publication = Hidden | Public(eventType: RunEventType, payload: Payload) | Rejected

  /** Segment borders are not published, and a cancelled tool has no public form. */
  function Published(ctx: Context, e: ExecEvent): Publication {
    match e
    case SegmentStarted(_, _) => Hidden
    case SegmentCompleted(_, _) => Hidden
    case SegmentDelta(Assistant, _, d) =>
      Public(TextDeltaType, map["assistantMessageId" := VStr(ctx.assistantMessageId), "delta" := VStr(d)])
    case SegmentDelta(Reasoning, _, d) => Public(ReasoningDeltaType, map["delta" := VStr(d)])
    case Diagnostic(payload) => Public(RunDiagnosticType, payload)
    case ToolLifecycle(phase, payload) => if phase == ToolCancelled then Rejected else Public(ToolEventType, payload)
    case RunCompleted(text) =>
      Public(RunCompletedType,
             ctx.completion + map["assistantMessageId" := VStr(ctx.assistantMessageId), "assistantText" := VStr(text)])
    case RunFailed(payload) => Public(RunFailedType, payload)
    case RunCancelled(reason) =>
      Public(RunCancelledType, map["assistantMessageId" := VStr(ctx.assistantMessageId), "reason" := VStr(reason)])
  }

  function Publications(ctx: Context, trace: seq<ExecEvent>): seq<Publication> {
    seq(|trace|, i requires 0 <= i < |trace| => Published(ctx, trace[i]))
  }

  /** At most one event per execution event, numbered on from the factory's counter. */
  function Project(ctx: Context, sequence: nat, e: ExecEvent): Result<seq<RunEvent>, ProjectionError> {
    match Published(ctx, e)
    case Rejected => Err(UnsupportedEvent(e))
    case Hidden => Ok([])
    case Public(eventType, payload) => Ok([RunEvent(eventType, sequence + 1, payload)])
  }

  /** What the public form of an execution event says, read from its type and payload. */
  predicate Tells(ctx: Context, e: ExecEvent, event: RunEvent) {
    var payload := event.payload;
    match e
    case SegmentDelta(kind, _, d) =>
      && event.eventType == (if kind == Assistant then TextDeltaType else ReasoningDeltaType)
      && Get(payload, "delta") == VStr(d)
      && (kind == Assistant ==> Get(payload, "assistantMessageId") == VStr(ctx.assistantMessageId))
    case Diagnostic(details) => event.eventType == RunDiagnosticType && payload == details
    case ToolLifecycle(_, details) => event.eventType == ToolEventType && payload == details
    case RunCompleted(text) =>
      && event.eventType == RunCompletedType
      && Get(payload, "assistantText") == VStr(text)
      && Get(payload, "assistantMessageId") == VStr(ctx.assistantMessageId)
      && ctx.completion.Keys <= payload.Keys
      && (forall key :: key in ctx.completion && key != "assistantText" && key != "assistantMessageId" ==>
            payload[key] == ctx.completion[key])
    case RunFailed(details) => event.eventType == RunFailedType && payload == details
    case RunCancelled(reason) =>
      && event.eventType == RunCancelledType && Get(payload, "reason") == VStr(reason)
      && Get(payload, "assistantMessageId") == VStr(ctx.assistantMessageId)
    case _ => false
  }

  /** Hidden are exactly the segment borders, refused exactly the cancelled tools; the rest is told in full. */
  lemma ProjectionTells(ctx: Context, sequence: nat, e: ExecEvent)
    ensures var r := Project(ctx, sequence, e);
            && (r.Err? <==> e.ToolLifecycle? && e.phase.ToolCancelled?)
            && (r.Ok? && r.value == [] <==> e.SegmentStarted? || e.SegmentCompleted?)
            && (r.Ok? && r.value != [] ==>
                  |r.value| == 1 && r.value[0].sequence == sequence + 1 && Tells(ctx, e, r.value[0]))
  {
  }

  class Projector {
    const events: RunEventFactory
    const ctx: Context

    constructor (events: RunEventFactory, ctx: Context)
      ensures this.events == events && this.ctx == ctx
    {
      this.events, this.ctx := events, ctx;
    }

    method ProjectEvent(e: ExecEvent) returns (r: Result<seq<RunEvent>, ProjectionError>)
      modifies events
      ensures r == Project(ctx, old(events.sequence), e)
      ensures events.sequence == old(events.sequence) + (if r.Ok? then |r.value| else 0)
      ensures r.Ok? && r.value != [] ==> Tells(ctx, e, r.value[0])
    {
      ProjectionTells(ctx, events.sequence, e);
      var built;
      match e {
      case SegmentStarted(_, _) => return Ok([]);
      case SegmentCompleted(_, _) => return Ok([]);
      case SegmentDelta(Assistant, _, d) =>
        built := events.Build(
          TextDeltaType, map["assistantMessageId" := VStr(ctx.assistantMessageId), "delta" := VStr(d)]);
      case SegmentDelta(Reasoning, _, d) =>
        built := events.Build(ReasoningDeltaType, map["delta" := VStr(d)]);
      case Diagnostic(payload) =>
        built := events.Build(RunDiagnosticType, payload);
      case ToolLifecycle(phase, payload) =>
        if phase == ToolCancelled {
          return Err(UnsupportedEvent(e));
        }
        built := events.Build(ToolEventType, payload);
      case RunCompleted(text) =>
        built := events.Build(
          RunCompletedType,
          ctx.completion + map["assistantMessageId" := VStr(ctx.assistantMessageId), "assistantText" := VStr(text)]);
      case RunFailed(payload) =>
        built := events.Build(RunFailedType, payload);
      case RunCancelled(reason) =>
        built := events.Build(
          RunCancelledType, map["assistantMessageId" := VStr(ctx.assistantMessageId), "reason" := VStr(reason)]);
      }
      r := Ok([built]);
    }
  }

  // ------------------------------------------------------------ text and numbers

  /** The assistant text carried by an event, by its type and payload. */
  function DeltaOf(eventType: RunEventType, payload: Payload): string {
    if eventType != TextDeltaType then ""
    else match GetString(payload, "delta")
      case Some(d) => d
      case None => ""
  }

  function StreamedText(events: seq<RunEvent>): string {
    if events == [] then "" else DeltaOf(events[0].eventType, events[0].payload) + StreamedText(events[1..])
  }

  lemma {:induction false} StreamedTextAppend(a: seq<RunEvent>, b: seq<RunEvent>)
    ensures StreamedText(a + b) == StreamedText(a) + StreamedText(b)
  {
    if a == [] {
      assert a + b == b;
    } else {
      assert (a + b)[0] == a[0] && (a + b)[1..] == a[1..] + b;
      StreamedTextAppend(a[1..], b);
    }
  }

  /** The k-th event carries number `first + k`. */
  ghost predicate NumberedFrom(events: seq<RunEvent>, first: nat) {
    forall k :: 0 <= k < |events| ==> events[k].sequence == first + k
  }

  function Terminals(events: seq<RunEvent>): nat {
    if events == [] then 0 else (if events[0].eventType.IsTerminal() then 1 else 0) + Terminals(events[1..])
  }

  lemma {:induction false} TerminalsAppend(a: seq<RunEvent>, b: seq<RunEvent>)
    ensures Terminals(a + b) == Terminals(a) + Terminals(b)
  {
    if a == [] {
      assert a + b == b;
    } else {
      assert (a + b)[0] == a[0] && (a + b)[1..] == a[1..] + b;
      TerminalsAppend(a[1..], b);
    }
  }

  lemma OneEvent(e: RunEvent)
    ensures StreamedText([e]) == DeltaOf(e.eventType, e.payload)
    ensures Terminals([e]) == if e.eventType.IsTerminal() then 1 else 0
  {
    assert [e][1..] == [];
  }

  lemma TwoEvents(a: RunEvent, b: RunEvent)
    ensures StreamedText([a, b]) == DeltaOf(a.eventType, a.payload) + DeltaOf(b.eventType, b.payload)
    ensures Terminals([a, b]) == (if a.eventType.IsTerminal() then 1 else 0) + (if b.eventType.IsTerminal() then 1 else 0)
  {
    OneEvent(b);
    assert [a, b][1..] == [b];
  }

  predicate EndsRun(e: ExecEvent) {
    e.RunCompleted? || e.RunFailed? || e.RunCancelled?
  }

  function PublicText(publications: seq<Publication>): string {
    if publications == [] then ""
    else
      (if publications[0].Public? then DeltaOf(publications[0].eventType, publications[0].payload) else "") +
      PublicText(publications[1..])
  }

  /** Publishing keeps the assistant text: it is the deltas of the assistant segments and nothing else. */
  lemma {:induction false} PublishingKeepsText(ctx: Context, trace: seq<ExecEvent>)
    ensures PublicText(Publications(ctx, trace)) == DeltaText(trace, Assistant)
  {
    if trace != [] {
      PublishingKeepsText(ctx, trace[1..]);
      assert Publications(ctx, trace)[1..] == Publications(ctx, trace[1..]);
    }
  }

  lemma PublishingKeepsPrefix(ctx: Context, trace: seq<ExecEvent>, taken: seq<Publication>)
    requires taken <= Publications(ctx, trace)
    ensures |taken| <= |trace| && taken == Publications(ctx, trace[..|taken|])
  {
  }
}
