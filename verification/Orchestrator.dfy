/**
 The orchestrator's event stream: it publishes what the agent stream produced, checks for a
 disconnected or cancelled client between events, and ends the run with a terminal event.
 */
module Orchestrator {
  import opened Common
  import opened ExecutionEvents
  import opened RunEvents

  datatype Failure = Failure(code: string, message: string, details: Payload, stage: Option<string>)

  /**
   How preparing the execution ended. The last two cases publish a metadata event; a late failure
   comes when that event has been built, and so numbered, but not been yielded.
   */
  datatype Preparation =
    | PrepareFails(failure: Failure)
    | LateFails(failure: Failure)
    | PreflightFails(metadata: Payload, failure: Failure)
    | Ready(metadata: Payload)

  /** How the agent stream ended after its last event. */
  datatype AgentOutcome = AgentOutput(text: string) | AgentRaises(failure: Failure) | AgentCancelled

  /** Why publishing the agent's events stopped. */
  datatype Stop = Exhausted | CutOff | Unsupported

  /** The outcome of the publishing loop; `taken` is the part of the trace it got through. */
  datatype Drive = Drive(events: seq<RunEvent>, sequence: nat, checks: nat, taken: seq<Publication>, stop: Stop)

  /** All the orchestrator yields, and whether a cancellation escaped from it instead. */
  datatype Stream = Stream(events: seq<RunEvent>, escaped: bool)

  /**
   The publishing loop. `disconnected(i)` is the answer of the i-th check. An event is numbered
   before the check, so a cut-off loses an event that already has a number.
   */
  function DriveFrom(
    sequence: nat, publications: seq<Publication>, disconnected: nat -> bool, checks: nat): Drive
    decreases |publications|
  {
    if publications == [] then Drive([], sequence, checks, [], Exhausted)
    else match publications[0]
      case Rejected => Drive([], sequence, checks, [], Unsupported)
      case Hidden =>
        var rest := DriveFrom(sequence, publications[1..], disconnected, checks);
        rest.(taken := [Hidden] + rest.taken)
      case Public(eventType, payload) =>
        if disconnected(checks) then Drive([], sequence + 1, checks + 1, [], CutOff)
        else
          var rest := DriveFrom(sequence + 1, publications[1..], disconnected, checks + 1);
          rest.(events := [RunEvent(eventType, sequence + 1, payload)] + rest.events,
                taken := [publications[0]] + rest.taken)
  }

  function FailurePayload(f: Failure): Payload {
    map["code" := VStr(f.code), "message" := VStr(f.message), "details" := VMap(f.details)]
  }

  function FailureEvents(f: Failure, sequence: nat): seq<RunEvent> {
    match f.stage
    case None => [RunEvent(RunFailedType, sequence + 1, FailurePayload(f))]
    case Some(stage) =>
      [RunEvent(RunDiagnosticType, sequence + 1, FailurePayload(f)["stage" := VStr(stage)]),
       RunEvent(RunFailedType, sequence + 2, FailurePayload(f))]
  }

  function CancelledEvents(ctx: Context, sequence: nat): seq<RunEvent> {
    [RunEvent(RunCancelledType, sequence + 1,
              map["assistantMessageId" := VStr(ctx.assistantMessageId), "reason" := VStr("cancelled")])]
  }

  function CompletedEvents(ctx: Context, text: string, sequence: nat): seq<RunEvent> {
    [RunEvent(RunCompletedType, sequence + 1,
              ctx.completion + map["assistantMessageId" := VStr(ctx.assistantMessageId), "assistantText" := VStr(text)])]
  }

  /** What follows the published events: two more checks, then one outside any handler. */
  function Ending(
    ctx: Context, drive: Drive, outcome: AgentOutcome, unsupported: Failure, disconnected: nat -> bool): Stream
  {
    match drive.stop
    case CutOff => Stream(CancelledEvents(ctx, drive.sequence), false)
    case Unsupported => Stream(FailureEvents(unsupported, drive.sequence), false)
    case Exhausted =>
      match outcome
      case AgentCancelled => Stream(CancelledEvents(ctx, drive.sequence), false)
      case AgentRaises(f) => Stream(FailureEvents(f, drive.sequence), false)
      case AgentOutput(text) =>
        if disconnected(drive.checks) || disconnected(drive.checks + 1)
        then Stream(CancelledEvents(ctx, drive.sequence), false)
        else if disconnected(drive.checks + 2) then Stream([], true)
        else Stream(CompletedEvents(ctx, text, drive.sequence), false)
  }

  function Opening(ctx: Context, preparation: Preparation): seq<RunEvent> {
    [RunEvent(RunStartedType, 1, map["assistantMessageId" := VStr(ctx.assistantMessageId)])] +
    (if preparation.PrepareFails? || preparation.LateFails? then []
     else [RunEvent(RunMetadataType, 2, preparation.metadata)])
  }

  /** The number of events built by the end of the preparation. */
  function Built(preparation: Preparation): nat {
    if preparation.PrepareFails? then 1 else 2
  }

  function StreamEvents(
    ctx: Context, preparation: Preparation, trace: seq<ExecEvent>, outcome: AgentOutcome, unsupported: Failure,
    disconnected: nat -> bool): Stream
  {
    var opening := Opening(ctx, preparation);
    if preparation.Ready? then
      var drive := MainDrive(ctx, preparation, trace, disconnected);
      var ending := Ending(ctx, drive, outcome, unsupported, disconnected);
      Stream(opening + drive.events + ending.events, ending.escaped)
    else Stream(opening + FailureEvents(preparation.failure, Built(preparation)), false)
  }

  /** The drive of a prepared run. */
  function MainDrive(
    ctx: Context, preparation: Preparation, trace: seq<ExecEvent>, disconnected: nat -> bool): Drive
  {
    DriveFrom(|Opening(ctx, preparation)|, Publications(ctx, trace), disconnected, 0)
  }

  // ------------------------------------------------------------------- loops

  /** What is left of a drive when the loop is at its i-th event. */
  ghost predicate Remains(
    whole: Drive, events: seq<RunEvent>, sequence: nat, publications: seq<Publication>, i: nat,
    disconnected: nat -> bool, checks: nat)
  {
    && i <= |publications|
    && var rest := DriveFrom(sequence, publications[i..], disconnected, checks);
    && whole.events == events + rest.events && whole.sequence == rest.sequence
    && whole.checks == rest.checks && whole.stop == rest.stop
  }

  predicate IsOutcome(whole: Drive, events: seq<RunEvent>, sequence: nat, checks: nat, stop: Stop) {
    whole.events == events && whole.sequence == sequence && whole.checks == checks && whole.stop == stop
  }

  /** One turn of the loop, by what projecting its event gives. */
  lemma DriveTurn(
    whole: Drive, events: seq<RunEvent>, ctx: Context, sequence: nat, trace: seq<ExecEvent>, i: nat,
    disconnected: nat -> bool, checks: nat, projected: Result<seq<RunEvent>, ProjectionError>)
    requires i < |trace| && projected == Project(ctx, sequence, trace[i])
    requires Remains(whole, events, sequence, Publications(ctx, trace), i, disconnected, checks)
    ensures match projected
            case Err(_) => IsOutcome(whole, events, sequence, checks, Unsupported)
            case Ok(built) =>
              if built != [] && disconnected(checks)
              then |built| == 1 && IsOutcome(whole, events, sequence + 1, checks + 1, CutOff)
              else
                && |built| <= 1
                && Remains(whole, events + built, sequence + |built|, Publications(ctx, trace), i + 1, disconnected,
                           checks + |built|)
  {
    var publications := Publications(ctx, trace);
    var published := Published(ctx, trace[i]);
    assert publications[i..][0] == published && publications[i..][1..] == publications[i + 1..];
    if published.Hidden? {
      assert events + [] == events;
    } else if published.Public? {
      EventsAssociate(events, projected.value, DriveFrom(sequence + 1, publications[i + 1..], disconnected, checks + 1).events);
    }
  }

  lemma EventsAssociate(a: seq<RunEvent>, b: seq<RunEvent>, c: seq<RunEvent>)
    ensures a + (b + c) == (a + b) + c
  {
  }

  /** Projects one event, and then checks for the client if there is something to publish. */
  method PublishOne(projector: Projector, e: ExecEvent, disconnected: nat -> bool, checks: nat)
    returns (published: Result<seq<RunEvent>, ProjectionError>, gone: bool)
    modifies projector.events
    ensures published == Project(projector.ctx, old(projector.events.sequence), e)
    ensures published.Ok? ==> projector.events.sequence == old(projector.events.sequence) + |published.value|
    ensures published.Err? ==> projector.events.sequence == old(projector.events.sequence)
    ensures gone <==> published.Ok? && published.value != [] && disconnected(checks)
  {
    gone := false;
    published := projector.ProjectEvent(e);
    if published.Ok? && published.value != [] {
      gone := disconnected(checks);
    }
  }

  method PublishEvents(projector: Projector, trace: seq<ExecEvent>, disconnected: nat -> bool)
    returns (events: seq<RunEvent>, checks: nat, stop: Stop)
    modifies projector.events
    ensures var drive := DriveFrom(old(projector.events.sequence), Publications(projector.ctx, trace), disconnected, 0);
            && events == drive.events && checks == drive.checks && stop == drive.stop
            && projector.events.sequence == drive.sequence
  {
    events, checks := [], 0;
    ghost var publications := Publications(projector.ctx, trace);
    ghost var whole := DriveFrom(projector.events.sequence, publications, disconnected, 0);
    var i := 0;
    assert publications[0..] == publications && [] + whole.events == whole.events;
    while i < |trace|
      invariant i <= |trace|
      invariant Remains(whole, events, projector.events.sequence, publications, i, disconnected, checks)
    {
      ghost var projected := Project(projector.ctx, projector.events.sequence, trace[i]);
      DriveTurn(whole, events, projector.ctx, projector.events.sequence, trace, i, disconnected, checks, projected);
      var published, gone := PublishOne(projector, trace[i], disconnected, checks);
      if published.Err? {
        return events, checks, Unsupported;
      }
      checks := checks + |published.value|;
      if gone {
        return events, checks, CutOff;
      }
      events := events + published.value;
      i := i + 1;
    }
    assert publications[|trace|..] == [] && events + [] == events;
    stop := Exhausted;
  }

  // -------------------------------------------------------------- properties

  predicate NonTerminal(publications: seq<Publication>) {
    forall i :: 0 <= i < |publications| && publications[i].Public? ==> !publications[i].eventType.IsTerminal()
  }

  /** Numbers are contiguous; only a cut-off uses up one more than it yields. */
  lemma {:induction false} DriveNumbers(
    sequence: nat, publications: seq<Publication>, disconnected: nat -> bool, checks: nat)
    ensures var d := DriveFrom(sequence, publications, disconnected, checks);
            && NumberedFrom(d.events, sequence + 1)
            && d.sequence == sequence + |d.events| + (if d.stop == CutOff then 1 else 0)
    decreases |publications|
  {
    if publications != [] && publications[0].Hidden? {
      DriveNumbers(sequence, publications[1..], disconnected, checks);
    } else if publications != [] && publications[0].Public? {
      DriveNumbers(sequence + 1, publications[1..], disconnected, checks + 1);
    }
  }

  lemma {:induction false} DriveTakes(
    sequence: nat, publications: seq<Publication>, disconnected: nat -> bool, checks: nat)
    ensures var d := DriveFrom(sequence, publications, disconnected, checks);
            d.taken <= publications && (d.stop == Exhausted ==> d.taken == publications)
    decreases |publications|
  {
    if publications != [] && publications[0].Hidden? {
      DriveTakes(sequence, publications[1..], disconnected, checks);
    } else if publications != [] && publications[0].Public? {
      DriveTakes(sequence + 1, publications[1..], disconnected, checks + 1);
    }
  }

  /** The yielded text is that of the part of the trace that was taken. */
  lemma {:induction false} DriveText(
    sequence: nat, publications: seq<Publication>, disconnected: nat -> bool, checks: nat)
    ensures var d := DriveFrom(sequence, publications, disconnected, checks); StreamedText(d.events) == PublicText(d.taken)
    decreases |publications|
  {
    if publications != [] && publications[0].Hidden? {
      DriveText(sequence, publications[1..], disconnected, checks);
    } else if publications != [] && publications[0].Public? {
      DriveText(sequence + 1, publications[1..], disconnected, checks + 1);
    }
  }

  lemma {:induction false} DriveTerminals(
    sequence: nat, publications: seq<Publication>, disconnected: nat -> bool, checks: nat)
    requires NonTerminal(publications)
    ensures Terminals(DriveFrom(sequence, publications, disconnected, checks).events) == 0
    decreases |publications|
  {
    if publications != [] && publications[0].Hidden? {
      DriveTerminals(sequence, publications[1..], disconnected, checks);
    } else if publications != [] && publications[0].Public? {
      DriveTerminals(sequence + 1, publications[1..], disconnected, checks + 1);
    }
  }

  /** Events that end a run: numbered on, without text, one terminal event in last place. */
  ghost predicate Ends(events: seq<RunEvent>, sequence: nat) {
    && NumberedFrom(events, sequence + 1) && StreamedText(events) == ""
    && events != [] && events[|events| - 1].eventType.IsTerminal() && Terminals(events) == 1
  }

  lemma OneEnds(e: RunEvent, sequence: nat)
    requires e.sequence == sequence + 1 && e.eventType.IsTerminal()
    ensures Ends([e], sequence)
  {
    OneEvent(e);
  }

  /** The events after the drive: one terminal event, in last place, unless a cancellation escapes. */
  lemma EndingShape(
    ctx: Context, drive: Drive, outcome: AgentOutcome, unsupported: Failure, disconnected: nat -> bool)
    ensures var e := Ending(ctx, drive, outcome, unsupported, disconnected);
            if e.escaped then e.events == [] else Ends(e.events, drive.sequence)
  {
    var n := drive.sequence;
    OneEnds(CancelledEvents(ctx, n)[0], n);
    if drive.stop == Unsupported {
      FailureShape(unsupported, n);
    } else if drive.stop == Exhausted && outcome.AgentRaises? {
      FailureShape(outcome.failure, n);
    } else if drive.stop == Exhausted && outcome.AgentOutput? {
      OneEnds(CompletedEvents(ctx, outcome.text, n)[0], n);
    }
  }

  lemma FailureShape(f: Failure, sequence: nat)
    ensures Ends(FailureEvents(f, sequence), sequence)
  {
    var events := FailureEvents(f, sequence);
    OneEvent(events[0]);
    if |events| == 2 {
      TwoEvents(events[0], events[1]);
    }
  }

  /** A failure is told by its code, message and details, and by a diagnostic before it if its stage is known. */
  lemma FailureTells(f: Failure, sequence: nat)
    ensures var events := FailureEvents(f, sequence);
            && |events| == (if f.stage.Some? then 2 else 1)
            && events[|events| - 1].eventType == RunFailedType
            && (forall i :: 0 <= i < |events| ==>
                  && Get(events[i].payload, "code") == VStr(f.code) && Get(events[i].payload, "message") == VStr(f.message)
                  && Get(events[i].payload, "details") == VMap(f.details))
            && (f.stage.Some? ==>
                  events[0].eventType == RunDiagnosticType && Get(events[0].payload, "stage") == VStr(f.stage.value))
  {
  }

  /** What ends a stream: the failure of an unsupported event or of the agent, a cancellation, or the output. */
  lemma EndingTells(
    ctx: Context, drive: Drive, outcome: AgentOutcome, unsupported: Failure, disconnected: nat -> bool)
    requires !Ending(ctx, drive, outcome, unsupported, disconnected).escaped
    ensures var events, n := Ending(ctx, drive, outcome, unsupported, disconnected).events, drive.checks;
            && events != []
            && var last := events[|events| - 1];
            if drive.stop == Unsupported then events == FailureEvents(unsupported, drive.sequence)
            else if drive.stop == Exhausted && outcome.AgentRaises? then events == FailureEvents(outcome.failure, drive.sequence)
            else if drive.stop == Exhausted && outcome.AgentOutput? && !disconnected(n) && !disconnected(n + 1) then
              && last.eventType == RunCompletedType && Get(last.payload, "assistantText") == VStr(outcome.text)
              && Get(last.payload, "assistantMessageId") == VStr(ctx.assistantMessageId)
              && (forall key :: key in ctx.completion && key != "assistantText" && key != "assistantMessageId" ==>
                    key in last.payload && last.payload[key] == ctx.completion[key])
            else
              && last.eventType == RunCancelledType && Get(last.payload, "reason") == VStr("cancelled")
              && Get(last.payload, "assistantMessageId") == VStr(ctx.assistantMessageId)
  {
  }

  /** What opens a stream: the start with the message id, and the metadata unless preparation failed. */
  lemma OpeningTells(ctx: Context, preparation: Preparation)
    ensures var events := Opening(ctx, preparation);
            && events != [] && events[0].eventType == RunStartedType
            && Get(events[0].payload, "assistantMessageId") == VStr(ctx.assistantMessageId)
            && (|events| == 2 <==> preparation.PreflightFails? || preparation.Ready?)
            && (|events| == 2 ==> events[1].eventType == RunMetadataType && events[1].payload == preparation.metadata)
            && |events| <= 2
  {
  }

  lemma OpeningShape(ctx: Context, preparation: Preparation)
    ensures var events := Opening(ctx, preparation);
            && NumberedFrom(events, 1) && StreamedText(events) == "" && Terminals(events) == 0
  {
    var events := Opening(ctx, preparation);
    OneEvent(events[0]);
    if |events| == 2 {
      TwoEvents(events[0], events[1]);
      assert events == [events[0], events[1]];
    }
  }

  lemma ReadyTerminals(ctx: Context, preparation: Preparation, trace: seq<ExecEvent>, disconnected: nat -> bool)
    requires forall i :: 0 <= i < |trace| ==> !EndsRun(trace[i])
    ensures Terminals(MainDrive(ctx, preparation, trace, disconnected).events) == 0
  {
    DriveTerminals(|Opening(ctx, preparation)|, Publications(ctx, trace), disconnected, 0);
  }

  /** A stream with its one terminal event in last place, or without any if it escaped. */
  ghost predicate Settled(s: Stream) {
    && Terminals(s.events) == (if s.escaped then 0 else 1)
    && (!s.escaped ==> s.events != [] && s.events[|s.events| - 1].eventType.IsTerminal())
  }

  lemma TerminalsJoin(opening: seq<RunEvent>, driven: seq<RunEvent>, ending: seq<RunEvent>)
    requires Terminals(opening) == 0 && Terminals(driven) == 0
    ensures Terminals(opening + driven + ending) == Terminals(ending)
    ensures ending != [] ==>
      var all := opening + driven + ending; all[|all| - 1] == ending[|ending| - 1]
  {
    TerminalsAppend(opening + driven, ending);
    TerminalsAppend(opening, driven);
  }

  lemma JoinedSettles(opening: seq<RunEvent>, driven: seq<RunEvent>, ending: Stream, sequence: nat)
    requires Terminals(opening) == 0 && Terminals(driven) == 0
    requires if ending.escaped then ending.events == [] else Ends(ending.events, sequence)
    ensures Settled(Stream(opening + driven + ending.events, ending.escaped))
  {
    TerminalsJoin(opening, driven, ending.events);
  }

  lemma UnpreparedSettles(
    ctx: Context, preparation: Preparation, trace: seq<ExecEvent>, outcome: AgentOutcome, unsupported: Failure,
    disconnected: nat -> bool)
    requires !preparation.Ready?
    ensures Settled(StreamEvents(ctx, preparation, trace, outcome, unsupported, disconnected))
  {
    var opening, ending := Opening(ctx, preparation), FailureEvents(preparation.failure, Built(preparation));
    OpeningShape(ctx, preparation);
    FailureShape(preparation.failure, Built(preparation));
    JoinedSettles(opening, [], Stream(ending, false), Built(preparation));
    assert opening + [] == opening;
  }

  lemma PreparedSettles(
    ctx: Context, preparation: Preparation, trace: seq<ExecEvent>, outcome: AgentOutcome, unsupported: Failure,
    disconnected: nat -> bool)
    requires preparation.Ready? && forall i :: 0 <= i < |trace| ==> !EndsRun(trace[i])
    ensures Settled(StreamEvents(ctx, preparation, trace, outcome, unsupported, disconnected))
  {
    var d := MainDrive(ctx, preparation, trace, disconnected);
    OpeningShape(ctx, preparation);
    ReadyTerminals(ctx, preparation, trace, disconnected);
    EndingShape(ctx, d, outcome, unsupported, disconnected);
    JoinedSettles(Opening(ctx, preparation), d.events, Ending(ctx, d, outcome, unsupported, disconnected), d.sequence);
  }

  /**
   Whole-run termination: the stream ends with its only terminal event, except in exactly one
   case: the client disappears between the last handled check and the check after the handlers.
   */
  lemma StreamTerminates(
    ctx: Context, preparation: Preparation, trace: seq<ExecEvent>, outcome: AgentOutcome, unsupported: Failure,
    disconnected: nat -> bool)
    requires forall i :: 0 <= i < |trace| ==> !EndsRun(trace[i])
    ensures var s := StreamEvents(ctx, preparation, trace, outcome, unsupported, disconnected);
            var d := MainDrive(ctx, preparation, trace, disconnected);
            && (s.escaped <==>
                  && preparation.Ready? && d.stop == Exhausted && outcome.AgentOutput?
                  && !disconnected(d.checks) && !disconnected(d.checks + 1) && disconnected(d.checks + 2))
            && Terminals(s.events) == (if s.escaped then 0 else 1)
            && (!s.escaped ==> s.events != [] && s.events[|s.events| - 1].eventType.IsTerminal())
  {
    if preparation.Ready? {
      PreparedSettles(ctx, preparation, trace, outcome, unsupported, disconnected);
    } else {
      UnpreparedSettles(ctx, preparation, trace, outcome, unsupported, disconnected);
    }
  }

  /** Three runs of numbers, with or without a gap before the last one. */
  lemma NumbersJoin(opening: seq<RunEvent>, driven: seq<RunEvent>, ending: seq<RunEvent>, gap: nat)
    requires NumberedFrom(opening, 1) && NumberedFrom(driven, |opening| + 1)
    requires NumberedFrom(ending, |opening| + |driven| + gap + 1)
    requires gap > 0 ==> ending != []
    ensures NumberedFrom(opening + driven + ending, 1) <==> gap == 0
  {
    var all := opening + driven + ending;
    if gap > 0 {
      assert all[|opening| + |driven|].sequence == |opening| + |driven| + gap + 1;
    }
  }

  /** The public events before the first unsupported one. */
  function Attempted(publications: seq<Publication>): nat {
    if publications == [] || publications[0].Rejected? then 0
    else (if publications[0].Public? then 1 else 0) + Attempted(publications[1..])
  }

  /** Publishing is cut off exactly when one of the checks before a public event finds the client gone. */
  lemma {:induction false} CutOffExactly(
    sequence: nat, publications: seq<Publication>, disconnected: nat -> bool, checks: nat)
    ensures DriveFrom(sequence, publications, disconnected, checks).stop == CutOff
       <==> exists i: nat :: checks <= i < checks + Attempted(publications) && disconnected(i)
    decreases |publications|
  {
    if publications != [] && publications[0].Hidden? {
      CutOffExactly(sequence, publications[1..], disconnected, checks);
    } else if publications != [] && publications[0].Public? {
      CutOffExactly(sequence + 1, publications[1..], disconnected, checks + 1);
    }
  }

  /** An event that has a number is never yielded: the metadata event, or the one at the cut-off. */
  predicate LosesNumber(
    ctx: Context, preparation: Preparation, trace: seq<ExecEvent>, disconnected: nat -> bool)
  {
    preparation.LateFails? || (preparation.Ready? && MainDrive(ctx, preparation, trace, disconnected).stop == CutOff)
  }

  /** The yielded events are numbered 1, 2, ... without a gap exactly when no numbered event is lost. */
  lemma StreamNumbers(
    ctx: Context, preparation: Preparation, trace: seq<ExecEvent>, outcome: AgentOutcome, unsupported: Failure,
    disconnected: nat -> bool)
    ensures var s := StreamEvents(ctx, preparation, trace, outcome, unsupported, disconnected);
            NumberedFrom(s.events, 1) <==> !LosesNumber(ctx, preparation, trace, disconnected)
  {
    var opening := Opening(ctx, preparation);
    OpeningShape(ctx, preparation);
    if preparation.Ready? {
      var d := MainDrive(ctx, preparation, trace, disconnected);
      DriveNumbers(|opening|, Publications(ctx, trace), disconnected, 0);
      EndingShape(ctx, d, outcome, unsupported, disconnected);
      NumbersJoin(opening, d.events, Ending(ctx, d, outcome, unsupported, disconnected).events,
                  if d.stop == CutOff then 1 else 0);
    } else {
      FailureShape(preparation.failure, Built(preparation));
      NumbersJoin(opening, [], FailureEvents(preparation.failure, Built(preparation)), Built(preparation) - |opening|);
      assert opening + [] == opening;
    }
  }

  /** The streamed text is the assistant text of the part of the trace that was taken. */
  lemma StreamText(
    ctx: Context, preparation: Preparation, trace: seq<ExecEvent>, outcome: AgentOutcome, unsupported: Failure,
    disconnected: nat -> bool)
    ensures var s := StreamEvents(ctx, preparation, trace, outcome, unsupported, disconnected);
            var d := MainDrive(ctx, preparation, trace, disconnected);
            && |d.taken| <= |trace| && (d.stop == Exhausted ==> |d.taken| == |trace|)
            && StreamedText(s.events) == if preparation.Ready? then DeltaText(trace[..|d.taken|], Assistant) else ""
  {
    var opening := Opening(ctx, preparation);
    var d := MainDrive(ctx, preparation, trace, disconnected);
    OpeningShape(ctx, preparation);
    DriveTakes(|opening|, Publications(ctx, trace), disconnected, 0);
    DriveText(|opening|, Publications(ctx, trace), disconnected, 0);
    PublishingKeepsPrefix(ctx, trace, d.taken);
    PublishingKeepsText(ctx, trace[..|d.taken|]);
    if preparation.Ready? {
      var ending := Ending(ctx, d, outcome, unsupported, disconnected);
      EndingShape(ctx, d, outcome, unsupported, disconnected);
      StreamedTextAppend(opening + d.events, ending.events);
      StreamedTextAppend(opening, d.events);
    } else {
      FailureShape(preparation.failure, Built(preparation));
      StreamedTextAppend(opening, FailureEvents(preparation.failure, Built(preparation)));
    }
  }

  // ---------------------------------------------------------------- examples

  /** A trace of one assistant segment. */
  const SAYS_HI: seq<ExecEvent> :=
    [SegmentStarted(Assistant, "s"), SegmentDelta(Assistant, "s", "hi"), SegmentCompleted(Assistant, "s")]

  lemma SaysHiDrive(ctx: Context, metadata: Payload, disconnected: nat -> bool)
    ensures var d := MainDrive(ctx, Ready(metadata), SAYS_HI, disconnected);
            && d.checks == 1 && (d.stop == CutOff <==> disconnected(0)) && (d.stop == Exhausted <==> !disconnected(0))
            && |d.events| == (if disconnected(0) then 0 else 1) && d.sequence == 3
  {
    var publications := Publications(ctx, SAYS_HI);
    var delta := publications[1];
    assert publications == [Hidden, delta, Hidden] && delta.Public?;
    assert publications[1..] == [delta, Hidden] && [delta, Hidden][1..] == [Hidden] && [Hidden][1..] == [];
    assert DriveFrom(3, [Hidden], disconnected, 1) == Drive([], 3, 1, [Hidden], Exhausted);
    var rest := DriveFrom(2, [delta, Hidden], disconnected, 0);
    assert MainDrive(ctx, Ready(metadata), SAYS_HI, disconnected) == rest.(taken := [Hidden] + rest.taken);
  }

  /** The client goes away just before the completed event: the stream never ends. */
  lemma VanishingClientEscapes(ctx: Context, metadata: Payload, unsupported: Failure, disconnected: nat -> bool)
    requires forall i: nat :: disconnected(i) <==> i >= 3
    ensures StreamEvents(ctx, Ready(metadata), SAYS_HI, AgentOutput("hi"), unsupported, disconnected).escaped
  {
    SaysHiDrive(ctx, metadata, disconnected);
  }

  /** The client goes away before the first delta: the stream is numbered 1, 2, 4. */
  lemma CutOffLeavesGap(ctx: Context, metadata: Payload, unsupported: Failure, disconnected: nat -> bool)
    requires disconnected(0)
    ensures var events := StreamEvents(ctx, Ready(metadata), SAYS_HI, AgentOutput("hi"), unsupported, disconnected).events;
            |events| == 3 && events[1].sequence == 2 && events[2].sequence == 4
  {
    SaysHiDrive(ctx, metadata, disconnected);
  }

  /** Preparation fails behind the metadata event: the stream is numbered 1, 3, with nobody gone. */
  lemma LateFailureLeavesGap(
    ctx: Context, failure: Failure, trace: seq<ExecEvent>, outcome: AgentOutcome, disconnected: nat -> bool)
    requires failure.stage.None?
    ensures var events := StreamEvents(ctx, LateFails(failure), trace, outcome, failure, disconnected).events;
            |events| == 2 && events[0].sequence == 1 && events[1].sequence == 3
  {
  }
}
