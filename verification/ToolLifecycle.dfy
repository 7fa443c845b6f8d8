/** Tool lifecycle events and their form as execution events. */
module ToolLifecycle {
  import opened Common
  import ExecutionEvents

  datatype Phase = Started | WaitingApproval | Completed | Failed

  datatype ToolEvent = ToolEvent(
    toolCallId: string,
    toolId: string,
    phase: Phase,
    title: string,
    summary: string,
    inputSummary: Option<string>,
    resultSummary: Option<string>,
    errorSummary: Option<string>,
    approval: Option<Payload>,
    formRequest: Option<Payload>)

  function PhaseName(phase: Phase): string {
    match phase
    case Started => "started"
    case WaitingApproval => "waiting_approval"
    case Completed => "completed"
    case Failed => "failed"
  }

  function ExecutionPhase(phase: Phase): ExecutionEvents.ToolPhase {
    match phase
    case Started => ExecutionEvents.ToolStarted
    case WaitingApproval => ExecutionEvents.ToolWaitingApproval
    case Completed => ExecutionEvents.ToolCompleted
    case Failed => ExecutionEvents.ToolFailed
  }

  function Optional(key: string, value: Option<string>): Payload {
    if value.Some? then map[key := VStr(value.value)] else map[]
  }

  function OptionalMap(key: string, value: Option<Payload>): Payload {
    if value.Some? then map[key := VMap(value.value)] else map[]
  }

  function Required(e: ToolEvent): Payload {
    map["toolCallId" := VStr(e.toolCallId), "toolId" := VStr(e.toolId), "phase" := VStr(PhaseName(e.phase)),
        "title" := VStr(e.title), "summary" := VStr(e.summary)]
  }

  function Summaries(e: ToolEvent): Payload {
    Optional("inputSummary", e.inputSummary) + Optional("resultSummary", e.resultSummary)
    + Optional("errorSummary", e.errorSummary)
  }

  function Attachments(e: ToolEvent): Payload {
    OptionalMap("approval", e.approval) + OptionalMap("formRequest", e.formRequest)
  }

  function Extras(e: ToolEvent): Payload {
    Summaries(e) + Attachments(e)
  }

  function ToPayload(e: ToolEvent): Payload {
    Required(e) + Extras(e)
  }

  function ToExecution(e: ToolEvent): ExecutionEvents.ExecEvent {
    ExecutionEvents.ToolLifecycle(ExecutionPhase(e.phase), ToPayload(e))
  }

  predicate Extra(key: string) {
    key == "inputSummary" || key == "resultSummary" || key == "errorSummary" || key == "approval" || key == "formRequest"
  }

  lemma SummaryKeys(e: ToolEvent)
    ensures var m := Summaries(e);
            && (forall key :: key in m ==> Extra(key))
            && Get(m, "inputSummary") == (if e.inputSummary.Some? then VStr(e.inputSummary.value) else VNull)
            && Get(m, "resultSummary") == (if e.resultSummary.Some? then VStr(e.resultSummary.value) else VNull)
            && Get(m, "errorSummary") == (if e.errorSummary.Some? then VStr(e.errorSummary.value) else VNull)
            && "approval" !in m && "formRequest" !in m
  {
  }

  lemma AttachmentKeys(e: ToolEvent)
    ensures var m := Attachments(e);
            && (forall key :: key in m ==> Extra(key))
            && Get(m, "approval") == (if e.approval.Some? then VMap(e.approval.value) else VNull)
            && Get(m, "formRequest") == (if e.formRequest.Some? then VMap(e.formRequest.value) else VNull)
            && "inputSummary" !in m && "resultSummary" !in m && "errorSummary" !in m
  {
  }

  lemma ExtraKeys(e: ToolEvent)
    ensures forall key :: key in Extras(e) ==> Extra(key)
    ensures Get(Extras(e), "formRequest") == if e.formRequest.Some? then VMap(e.formRequest.value) else VNull
    ensures Get(Extras(e), "approval") == if e.approval.Some? then VMap(e.approval.value) else VNull
  {
    SummaryKeys(e);
    AttachmentKeys(e);
    Merged(Summaries(e), Attachments(e), "formRequest");
    Merged(Summaries(e), Attachments(e), "approval");
  }

  lemma ExtraTexts(e: ToolEvent)
    ensures Get(Extras(e), "inputSummary") == if e.inputSummary.Some? then VStr(e.inputSummary.value) else VNull
    ensures Get(Extras(e), "resultSummary") == if e.resultSummary.Some? then VStr(e.resultSummary.value) else VNull
    ensures Get(Extras(e), "errorSummary") == if e.errorSummary.Some? then VStr(e.errorSummary.value) else VNull
  {
    SummaryKeys(e);
    AttachmentKeys(e);
    Merged(Summaries(e), Attachments(e), "inputSummary");
    Merged(Summaries(e), Attachments(e), "resultSummary");
    Merged(Summaries(e), Attachments(e), "errorSummary");
  }

  /** The optional parts come back as they were given, and those that were not given do not appear. */
  lemma PayloadTellsExtras(e: ToolEvent)
    ensures var p := ToPayload(e);
            && Get(p, "inputSummary") == (if e.inputSummary.Some? then VStr(e.inputSummary.value) else VNull)
            && Get(p, "resultSummary") == (if e.resultSummary.Some? then VStr(e.resultSummary.value) else VNull)
            && Get(p, "errorSummary") == (if e.errorSummary.Some? then VStr(e.errorSummary.value) else VNull)
            && Get(p, "approval") == (if e.approval.Some? then VMap(e.approval.value) else VNull)
            && Get(p, "title") == VStr(e.title)
  {
    var required, extras := Required(e), Extras(e);
    ExtraKeys(e);
    ExtraTexts(e);
    RequiredKeys(e);
    Merged(required, extras, "inputSummary");
    Merged(required, extras, "resultSummary");
    Merged(required, extras, "errorSummary");
    Merged(required, extras, "approval");
    Merged(required, extras, "title");
  }

  /** The phase a consumer reads and the phase of the execution event are those of the tool event. */
  lemma PhasesTell(e: ToolEvent)
    ensures var phase := ToExecution(e).phase;
            && ToExecution(e).payload == ToPayload(e)
            && match e.phase
               case Started => PhaseName(e.phase) == "started" && phase.ToolStarted?
               case WaitingApproval => PhaseName(e.phase) == "waiting_approval" && phase.ToolWaitingApproval?
               case Completed => PhaseName(e.phase) == "completed" && phase.ToolCompleted?
               case Failed => PhaseName(e.phase) == "failed" && phase.ToolFailed?
  {
  }

  lemma RequiredKeys(e: ToolEvent)
    ensures var r := Required(e);
            && "toolCallId" in r && r["toolCallId"] == VStr(e.toolCallId) && "toolId" in r && r["toolId"] == VStr(e.toolId)
            && "phase" in r && r["phase"] == VStr(PhaseName(e.phase)) && "summary" in r && r["summary"] == VStr(e.summary)
            && "title" in r && r["title"] == VStr(e.title) && forall key :: key in r ==> !Extra(key)
    ensures !Extra("title") && !Extra("toolCallId") && !Extra("toolId") && !Extra("phase") && !Extra("summary")
  {
  }

  lemma Merged(required: Payload, extras: Payload, key: string)
    ensures key !in extras ==> Get(required + extras, key) == Get(required, key)
    ensures key !in required ==> Get(required + extras, key) == Get(extras, key)
  {
  }

  /** A consumer reads back the call, the phase and the form; a cancelled tool is never announced. */
  lemma PayloadTells(e: ToolEvent)
    ensures var p := ToPayload(e);
            && Get(p, "toolCallId") == VStr(e.toolCallId) && Get(p, "toolId") == VStr(e.toolId)
            && Get(p, "phase") == VStr(PhaseName(e.phase)) && Get(p, "summary") == VStr(e.summary)
            && Get(p, "formRequest") == (if e.formRequest.Some? then VMap(e.formRequest.value) else VNull)
    ensures ToExecution(e).phase != ExecutionEvents.ToolCancelled
  {
    var required, extras := Required(e), Extras(e);
    RequiredKeys(e);
    ExtraKeys(e);
    Merged(required, extras, "toolCallId");
    Merged(required, extras, "toolId");
    Merged(required, extras, "phase");
    Merged(required, extras, "summary");
    Merged(required, extras, "formRequest");
  }
}
