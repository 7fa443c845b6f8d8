/**
 The agent's event stream: text, reasoning and raw tool calls coming from the model, and tool
 lifecycle events coming from the tools, are turned into buffer operations; the stream closes its
 trace and discards its run's approvals on every exit path.
 */
module AgentStream {
  import opened Common
  import opened Text
  import opened ExecutionEvents
  import opened RunEvents
  import opened ToolLifecycle
  import Approval

  // -------------------------------------------------------- raw tool calls

  datatype Args = TextArgs(text: string) | DictArgs(dict: Payload)

  /** What is known of the tool call of one part, and which of its diagnostics are out. */
  datatype Call = Call(
    toolName: Option<string>,
    toolCallId: Option<string>,
    args: Option<Args>,
    observed: bool,
    completed: bool)

  const UNKNOWN := Call(None, None, None, false, false)

  /**
   Functions the stream takes from elsewhere: decoding of JSON objects, the tool id for a tool
   name, the summary of a tool input, and the provider endpoint type.
   */
  datatype Setup = Setup(
    decode: string -> Option<Payload>,
    toolId: Option<string> -> string,
    summarize: Payload -> string,
    endpointType: Value)

  function ParseArgs(setup: Setup, args: Option<Args>): Option<Payload> {
    match args
    case None => None
    case Some(DictArgs(dict)) => Some(dict)
    case Some(TextArgs(text)) => if Strip(text) == "" then None else setup.decode(Strip(text))
  }

  predicate Complete(setup: Setup, args: Option<Args>) {
    ParseArgs(setup, args).Some? || (args.Some? && args.value.DictArgs?)
  }

  function Merge(current: Option<Args>, update: Args): Args {
    match (current, update)
    case (Some(TextArgs(a)), TextArgs(b)) => TextArgs(a + b)
    case (Some(DictArgs(a)), DictArgs(b)) => DictArgs(a + b)
    case _ => update
  }

  predicate Truthy(s: Option<string>) {
    s.Some? && s.value != ""
  }

  predicate Identified(call: Call) {
    Truthy(call.toolName) && Truthy(call.toolCallId)
  }

  // ------------------------------------------------------------------ inputs

  datatype StreamEvent =
    | TextReceived(text: string)
    | ThinkingReceived(thought: Option<string>)
    | ToolPart(index: int, name: Option<string>, callId: Option<string>, args: Option<Args>)
    | ToolDelta(index: int, name: Option<string>, callId: Option<string>, args: Option<Args>)
    | LifecycleRecorded(event: ToolEvent)
    | OtherReceived

  /** A starting part replaces what it states. */
  function WithPart(call: Call, name: Option<string>, callId: Option<string>, args: Option<Args>): Call {
    call.(toolName := if Truthy(name) then name else call.toolName,
          toolCallId := if Truthy(callId) then callId else call.toolCallId,
          args := if args.Some? then args else call.args)
  }

  /** A delta extends the name and the arguments and replaces the id. */
  function WithDelta(call: Call, name: Option<string>, callId: Option<string>, args: Option<Args>): Call {
    var known := if call.toolName.Some? then call.toolName.value else "";
    call.(toolName := if Truthy(name) then Some(known + name.value) else call.toolName,
          toolCallId := if callId.Some? then callId else call.toolCallId,
          args := if args.Some? then Some(Merge(call.args, args.value)) else call.args)
  }

  // ----------------------------------------------------------------- outputs

  datatype NoteKind = Observed | ArgumentsCompleted | ExecutionMissing

  datatype Emission =
    | Say(kind: Kind, text: string)
    | Note(note: NoteKind, index: int, call: Call)
    | Announce(event: ToolEvent)
    | Flush

  function NoteCode(note: NoteKind): string {
    match note
    case Observed => "raw_tool_call_observed"
    case ArgumentsCompleted => "raw_tool_call_arguments_completed"
    case ExecutionMissing => "raw_tool_call_unexecuted"
  }

  function NoteMessage(note: NoteKind): string {
    match note
    case Observed => "Observed provider tool call in raw collector."
    case ArgumentsCompleted => "Provider tool call arguments became complete in raw collector."
    case ExecutionMissing =>
      "Provider tool call arguments became complete, but no actual tool execution followed."
  }

  function ObservationKind(note: NoteKind): string {
    match note
    case Observed => "observed"
    case ArgumentsCompleted => "arguments_completed"
    case ExecutionMissing => "execution_missing"
  }

  function Nullable(s: Option<string>): Value {
    if s.Some? then VStr(s.value) else VNull
  }

  function ArgDetails(setup: Setup, args: Option<Args>): Payload {
    match ParseArgs(setup, args)
    case Some(parsed) => map["toolArguments" := VMap(parsed)]
    case None =>
      match args
      case Some(TextArgs(text)) => if Strip(text) != "" then map["toolArgumentsJson" := VStr(text)] else map[]
      case _ => map[]
  }

  function NoteDetails(setup: Setup, note: NoteKind, index: int, call: Call): Payload {
    map["source" := VStr("pydantic_raw_stream"),
        "providerEndpointType" := setup.endpointType,
        "observationKind" := VStr(ObservationKind(note)),
        "partIndex" := VInt(index),
        "toolCallId" := Nullable(call.toolCallId),
        "toolName" := Nullable(call.toolName),
        "argumentsComplete" := VBool(Complete(setup, call.args))]
    + ArgDetails(setup, call.args)
  }

  function NotePayload(setup: Setup, note: NoteKind, index: int, call: Call): Payload {
    map["code" := VStr(NoteCode(note)),
        "message" := VStr(NoteMessage(note)),
        "details" := VMap(NoteDetails(setup, note, index, call)),
        "stage" := VStr(if note.ExecutionMissing? then "drive_raw_tool_call" else "collect_raw_stream")]
  }

  function ToOp(setup: Setup, e: Emission): Op {
    match e
    case Say(kind, text) => Delta(kind, text)
    case Note(note, index, call) => Event(Diagnostic(NotePayload(setup, note, index, call)))
    case Announce(event) => Event(ToExecution(event))
    case Flush => Drain
  }

  function Ops(setup: Setup, es: seq<Emission>): seq<Op> {
    seq(|es|, i requires 0 <= i < |es| => ToOp(setup, es[i]))
  }

  // ------------------------------------------------------------ the tracker

  /** `order` lists the part indices in the order in which they were first seen. */
  datatype Tracker = Tracker(
    calls: map<int, Call>,
    order: seq<int>,
    observations: nat,
    completions: nat,
    announced: set<string>)

  const NO_CALLS := Tracker(map[], [], 0, 0, {})

  datatype Reaction = Reaction(tracker: Tracker, emissions: seq<Emission>)

  function Store(t: Tracker, index: int, call: Call): Tracker {
    t.(calls := t.calls[index := call], order := if index in t.calls then t.order else t.order + [index])
  }

  /** The diagnostic a changed call still owes, if any. */
  function Track(setup: Setup, t: Tracker, index: int, call: Call): Reaction {
    var complete := Complete(setup, call.args);
    if !call.observed && Identified(call) then
      Reaction(Store(t, index, call.(observed := true, completed := call.completed || complete))
                 .(observations := t.observations + 1, completions := t.completions + if complete then 1 else 0),
               [Note(Observed, index, call)])
    else if call.observed && !call.completed && complete then
      Reaction(Store(t, index, call.(completed := true)).(completions := t.completions + 1),
               [Note(ArgumentsCompleted, index, call)])
    else Reaction(Store(t, index, call), [])
  }

  function CallAt(t: Tracker, index: int): Call {
    if index in t.calls then t.calls[index] else UNKNOWN
  }

  function React(setup: Setup, t: Tracker, e: StreamEvent): Reaction {
    match e
    case TextReceived(text) => Reaction(t, (if text == "" then [] else [Say(Assistant, text)]) + [Flush])
    case ThinkingReceived(thought) =>
      Reaction(t, (if Truthy(thought) then [Say(Reasoning, thought.value)] else []) + [Flush])
    case ToolPart(index, name, callId, args) =>
      var r := Track(setup, t, index, WithPart(CallAt(t, index), name, callId, args));
      r.(emissions := r.emissions + [Flush])
    case ToolDelta(index, name, callId, args) =>
      var r := Track(setup, t, index, WithDelta(CallAt(t, index), name, callId, args));
      r.(emissions := r.emissions + [Flush])
    case LifecycleRecorded(event) =>
      Reaction(t.(announced := t.announced + {event.toolCallId}), [Announce(event), Flush])
    case OtherReceived => Reaction(t, [])
  }

  /** A whole stream of events, appended to what was emitted before. */
  function Watch(setup: Setup, r: Reaction, events: seq<StreamEvent>): Reaction
    decreases |events|
  {
    if events == [] then r
    else
      var next := React(setup, r.tracker, events[0]);
      Watch(setup, Reaction(next.tracker, r.emissions + next.emissions), events[1..])
  }

  // ------------------------------------------------------- the final check

  predicate LeftUnexecuted(t: Tracker, index: int) {
    && index in t.calls && t.calls[index].completed && t.calls[index].toolCallId.Some?
    && t.calls[index].toolCallId.value !in t.announced
  }

  function PendingCalls(t: Tracker, order: seq<int>): seq<int> {
    if order == [] then []
    else (if LeftUnexecuted(t, order[0]) then [order[0]] else []) + PendingCalls(t, order[1..])
  }

  function FailureOf(setup: Setup, call: Call): ToolEvent
    requires call.toolCallId.Some?
  {
    var input := ParseArgs(setup, call.args);
    ToolEvent(call.toolCallId.value, setup.toolId(call.toolName), Failed, "工具调用失败",
              "模型产生了工具调用，但运行时未真正执行该调用。",
              if input.Some? then Some(setup.summarize(input.value)) else None,
              None, Some(NoteMessage(ExecutionMissing)), None, None)
  }

  function FailOne(setup: Setup, r: Reaction, index: int): Reaction {
    if index !in r.tracker.calls || r.tracker.calls[index].toolCallId.None? then r
    else
      var call := r.tracker.calls[index];
      var event := FailureOf(setup, call);
      Reaction(r.tracker.(announced := r.tracker.announced + {event.toolCallId}),
               r.emissions + [Note(ExecutionMissing, index, call), Announce(event), Flush])
  }

  /** Fails the calls that were listed as pending before any of them is failed. */
  function FailAll(setup: Setup, r: Reaction, pending: seq<int>): Reaction
    decreases |pending|
  {
    if pending == [] then r else FailAll(setup, FailOne(setup, r, pending[0]), pending[1..])
  }

  function FinalCheck(setup: Setup, r: Reaction): Reaction {
    FailAll(setup, r, PendingCalls(r.tracker, r.tracker.order))
  }

  /** How the agent run itself ended; the output of a finished run need not be text. */
  datatype AgentEnd = Finished(output: Option<string>) | Raised | WasCancelled

  datatype AgentFailure = NotText | EmptyText | FromAgent | CancelledRun

  function Verdict(end: AgentEnd): Result<string, AgentFailure> {
    match end
    case Finished(None) => Err(NotText)
    case Finished(Some(text)) => if Strip(text) == "" then Err(EmptyText) else Ok(Strip(text))
    case Raised => Err(FromAgent)
    case WasCancelled => Err(CancelledRun)
  }

  /** The whole run: only one that produced text is checked for unexecuted calls. */
  function Whole(setup: Setup, events: seq<StreamEvent>, end: AgentEnd): Reaction {
    var r := Watch(setup, Reaction(NO_CALLS, []), events);
    if Verdict(end).Ok? then FinalCheck(setup, r) else r
  }

  // --------------------------------------------- properties of the diagnostics

  predicate IsNote(e: Emission, note: NoteKind, index: int) {
    e.Note? && e.note == note && e.index == index
  }

  function Notes(es: seq<Emission>, note: NoteKind, index: int): nat {
    if es == [] then 0 else Notes(es[..|es| - 1], note, index) + if IsNote(es[|es| - 1], note, index) then 1 else 0
  }

  lemma NotesSnoc(es: seq<Emission>, e: Emission, note: NoteKind, index: int)
    ensures Notes(es + [e], note, index) == Notes(es, note, index) + if IsNote(e, note, index) then 1 else 0
  {
    assert (es + [e])[..|es|] == es;
  }

  /** Each diagnostic comes when none of its kind has been there, and completion only after observation. */
  predicate InOrder(es: seq<Emission>) {
    es == [] ||
    (var before, e := es[..|es| - 1], es[|es| - 1];
     && InOrder(before)
     && (e.Note? && e.note.Observed? ==> Notes(before, Observed, e.index) == 0)
     && (e.Note? && e.note.ArgumentsCompleted? ==>
           Notes(before, Observed, e.index) == 1 && Notes(before, ArgumentsCompleted, e.index) == 0))
  }

  lemma InOrderSnoc(es: seq<Emission>, e: Emission)
    ensures InOrder(es + [e]) <==>
      && InOrder(es)
      && (e.Note? && e.note.Observed? ==> Notes(es, Observed, e.index) == 0)
      && (e.Note? && e.note.ArgumentsCompleted? ==>
            Notes(es, Observed, e.index) == 1 && Notes(es, ArgumentsCompleted, e.index) == 0)
  {
    assert (es + [e])[..|es|] == es;
  }

  /** One call, the diagnostics already out for it, and what may not be outstanding. */
  predicate CallOk(setup: Setup, call: Call, observed: nat, completed: nat) {
    && (Identified(call) ==> call.observed)
    && (call.completed ==> call.observed)
    && (call.observed && Complete(setup, call.args) ==> call.completed)
    && observed == (if call.observed then 1 else 0)
    && completed <= (if call.completed then 1 else 0)
  }

  function ObservedIn(calls: map<int, Call>): set<int> {
    set i | i in calls && calls[i].observed
  }

  function CompletedIn(calls: map<int, Call>): set<int> {
    set i | i in calls && calls[i].completed
  }

  ghost predicate TrackerInv(setup: Setup, r: Reaction) {
    var t, es := r.tracker, r.emissions;
    && InOrder(es)
    && (forall i :: CallOk(setup, CallAt(t, i), Notes(es, Observed, i), Notes(es, ArgumentsCompleted, i)))
    && t.observations == |ObservedIn(t.calls)|
    && t.completions == |CompletedIn(t.calls)|
    && (forall i :: i in t.order <==> i in t.calls)
  }

  lemma ObservedStored(t: Tracker, index: int, call: Call)
    requires CallAt(t, index).observed ==> call.observed
    ensures ObservedIn(Store(t, index, call).calls) == ObservedIn(t.calls) + if call.observed then {index} else {}
    ensures index in ObservedIn(t.calls) <==> CallAt(t, index).observed
  {
  }

  lemma CompletedStored(t: Tracker, index: int, call: Call)
    requires CallAt(t, index).completed ==> call.completed
    ensures CompletedIn(Store(t, index, call).calls) == CompletedIn(t.calls) + if call.completed then {index} else {}
    ensures index in CompletedIn(t.calls) <==> CallAt(t, index).completed
  {
  }

  lemma OneMore(s: set<int>, i: int, b: bool)
    ensures |s + if b then {i} else {}| == |s| + (if b && i !in s then 1 else 0)
  {
    if !b || i in s {
      assert s + (if b then {i} else {}) == s;
    }
  }

  lemma StoreFlags(t: Tracker, index: int, call: Call)
    requires CallAt(t, index).observed ==> call.observed
    requires CallAt(t, index).completed ==> call.completed
    ensures var calls := Store(t, index, call).calls;
            && |ObservedIn(calls)| == |ObservedIn(t.calls)| + (if call.observed && !CallAt(t, index).observed then 1 else 0)
            && |CompletedIn(calls)| == |CompletedIn(t.calls)| + (if call.completed && !CallAt(t, index).completed then 1 else 0)
  {
    ObservedStored(t, index, call);
    CompletedStored(t, index, call);
    OneMore(ObservedIn(t.calls), index, call.observed);
    OneMore(CompletedIn(t.calls), index, call.completed);
  }

  /** An emission that is no diagnostic of either kind changes nothing. */
  lemma PlainKeeps(setup: Setup, r: Reaction, e: Emission)
    requires TrackerInv(setup, r) && (e.Note? ==> e.note.ExecutionMissing?)
    ensures TrackerInv(setup, r.(emissions := r.emissions + [e]))
  {
    InOrderSnoc(r.emissions, e);
    forall i, note | note != ExecutionMissing ensures Notes(r.emissions + [e], note, i) == Notes(r.emissions, note, i) {
      NotesSnoc(r.emissions, e, note, i);
    }
  }

  lemma TrackKeeps(setup: Setup, r: Reaction, index: int, call: Call)
    requires TrackerInv(setup, r)
    requires call.observed == CallAt(r.tracker, index).observed && call.completed == CallAt(r.tracker, index).completed
    ensures var next := Track(setup, r.tracker, index, call);
            TrackerInv(setup, Reaction(next.tracker, r.emissions + next.emissions))
  {
    var t, es := r.tracker, r.emissions;
    var next := Track(setup, t, index, call);
    assert CallOk(setup, CallAt(t, index), Notes(es, Observed, index), Notes(es, ArgumentsCompleted, index));
    StoreFlags(t, index, CallAt(next.tracker, index));
    if next.emissions == [] {
      assert es + [] == es;
    } else {
      InOrderSnoc(es, next.emissions[0]);
    }
    forall i
      ensures CallOk(setup, CallAt(next.tracker, i),
                     Notes(es + next.emissions, Observed, i), Notes(es + next.emissions, ArgumentsCompleted, i))
    {
      assert CallOk(setup, CallAt(t, i), Notes(es, Observed, i), Notes(es, ArgumentsCompleted, i));
      if next.emissions != [] {
        NotesSnoc(es, next.emissions[0], Observed, i);
        NotesSnoc(es, next.emissions[0], ArgumentsCompleted, i);
      }
    }
  }

  lemma TrackFlushKeeps(setup: Setup, r: Reaction, index: int, call: Call)
    requires TrackerInv(setup, r)
    requires call.observed == CallAt(r.tracker, index).observed && call.completed == CallAt(r.tracker, index).completed
    ensures var next := Track(setup, r.tracker, index, call);
            TrackerInv(setup, Reaction(next.tracker, r.emissions + (next.emissions + [Flush])))
  {
    var next := Track(setup, r.tracker, index, call);
    TrackKeeps(setup, r, index, call);
    PlainKeeps(setup, Reaction(next.tracker, r.emissions + next.emissions), Flush);
    assert r.emissions + (next.emissions + [Flush]) == (r.emissions + next.emissions) + [Flush];
  }

  lemma PlainPairKeeps(setup: Setup, r: Reaction, e: Emission)
    requires TrackerInv(setup, r) && (e.Note? ==> e.note.ExecutionMissing?)
    ensures TrackerInv(setup, r.(emissions := r.emissions + [e, Flush]))
  {
    PlainKeeps(setup, r, e);
    PlainKeeps(setup, r.(emissions := r.emissions + [e]), Flush);
    assert r.emissions + [e, Flush] == (r.emissions + [e]) + [Flush];
  }

  lemma SayKeeps(setup: Setup, r: Reaction, kind: Kind, text: string)
    requires TrackerInv(setup, r)
    ensures TrackerInv(setup, r.(emissions := r.emissions + ((if text == "" then [] else [Say(kind, text)]) + [Flush])))
  {
    if text == "" {
      PlainKeeps(setup, r, Flush);
      assert [] + [Flush] == [Flush];
    } else {
      PlainPairKeeps(setup, r, Say(kind, text));
      assert [Say(kind, text)] + [Flush] == [Say(kind, text), Flush];
    }
  }

  lemma AnnouncedKeeps(setup: Setup, r: Reaction, announced: set<string>)
    requires TrackerInv(setup, r)
    ensures TrackerInv(setup, r.(tracker := r.tracker.(announced := announced)))
  {
    forall i
      ensures CallOk(setup, CallAt(r.tracker.(announced := announced), i),
                     Notes(r.emissions, Observed, i), Notes(r.emissions, ArgumentsCompleted, i))
    {
      assert CallOk(setup, CallAt(r.tracker, i), Notes(r.emissions, Observed, i), Notes(r.emissions, ArgumentsCompleted, i));
    }
  }

  lemma ReactKeeps(setup: Setup, r: Reaction, e: StreamEvent)
    requires TrackerInv(setup, r)
    ensures var next := React(setup, r.tracker, e);
            TrackerInv(setup, Reaction(next.tracker, r.emissions + next.emissions))
  {
    var next := React(setup, r.tracker, e);
    match e
    case TextReceived(text) => SayKeeps(setup, r, Assistant, text);
    case ThinkingReceived(thought) => SayKeeps(setup, r, Reasoning, if Truthy(thought) then thought.value else "");
    case ToolPart(index, name, callId, args) =>
      TrackFlushKeeps(setup, r, index, WithPart(CallAt(r.tracker, index), name, callId, args));
    case ToolDelta(index, name, callId, args) =>
      TrackFlushKeeps(setup, r, index, WithDelta(CallAt(r.tracker, index), name, callId, args));
    case LifecycleRecorded(event) =>
      PlainPairKeeps(setup, r, Announce(event));
      AnnouncedKeeps(setup, r.(emissions := r.emissions + [Announce(event), Flush]), next.tracker.announced);
    case OtherReceived =>
      assert r.emissions + [] == r.emissions;
  }

  lemma {:induction false} WatchKeeps(setup: Setup, r: Reaction, events: seq<StreamEvent>)
    requires TrackerInv(setup, r)
    ensures TrackerInv(setup, Watch(setup, r, events))
    decreases |events|
  {
    if events != [] {
      ReactKeeps(setup, r, events[0]);
      var next := React(setup, r.tracker, events[0]);
      WatchKeeps(setup, Reaction(next.tracker, r.emissions + next.emissions), events[1..]);
    }
  }

  /** What failing calls keeps, and which ids it announces. */
  ghost predicate FailKeeps(setup: Setup, r: Reaction, r': Reaction) {
    && TrackerInv(setup, r')
    && r'.tracker == r.tracker.(announced := r'.tracker.announced)
    && r.tracker.announced <= r'.tracker.announced
  }

  lemma AnnouncementKeeps(setup: Setup, r: Reaction, note: Emission, event: ToolEvent)
    requires TrackerInv(setup, r) && note.Note? && note.note.ExecutionMissing?
    ensures FailKeeps(setup, r, Reaction(r.tracker.(announced := r.tracker.announced + {event.toolCallId}),
                                         r.emissions + [note, Announce(event), Flush]))
  {
    PlainKeeps(setup, r, note);
    PlainPairKeeps(setup, r.(emissions := r.emissions + [note]), Announce(event));
    assert (r.emissions + [note]) + [Announce(event), Flush] == r.emissions + [note, Announce(event), Flush];
    AnnouncedKeeps(setup, r.(emissions := r.emissions + [note, Announce(event), Flush]),
                   r.tracker.announced + {event.toolCallId});
  }

  lemma FailOneKeeps(setup: Setup, r: Reaction, index: int)
    requires TrackerInv(setup, r)
    ensures FailKeeps(setup, r, FailOne(setup, r, index))
  {
    if index in r.tracker.calls && r.tracker.calls[index].toolCallId.Some? {
      var call := r.tracker.calls[index];
      AnnouncementKeeps(setup, r, Note(ExecutionMissing, index, call), FailureOf(setup, call));
    }
  }

  lemma {:induction false} FailAllKeeps(setup: Setup, r: Reaction, pending: seq<int>)
    requires TrackerInv(setup, r)
    ensures var r' := FailAll(setup, r, pending);
            && FailKeeps(setup, r, r')
            && forall i :: i in pending && i in r.tracker.calls && r.tracker.calls[i].toolCallId.Some? ==>
                 r.tracker.calls[i].toolCallId.value in r'.tracker.announced
    decreases |pending|
  {
    if pending != [] {
      assert pending == [pending[0]] + pending[1..];
      FailOneKeeps(setup, r, pending[0]);
      FailAllKeeps(setup, FailOne(setup, r, pending[0]), pending[1..]);
    }
  }

  lemma NoCallsOk(setup: Setup)
    ensures TrackerInv(setup, Reaction(NO_CALLS, []))
  {
    assert ObservedIn(map[]) == {} && CompletedIn(map[]) == {};
    assert InOrder([]);
    forall i ensures CallOk(setup, CallAt(NO_CALLS, i), Notes([], Observed, i), Notes([], ArgumentsCompleted, i)) {
    }
  }

  lemma {:induction false} PendingListed(t: Tracker, order: seq<int>)
    ensures forall i :: i in PendingCalls(t, order) <==> i in order && LeftUnexecuted(t, i)
  {
    if order != [] {
      PendingListed(t, order[1..]);
    }
  }

  /**
   For every stream of part starts, deltas and lifecycle events and every ending: at most one
   observation and one completion diagnostic per part index, in this order; the counters count the
   flagged calls; no identified call and no completed arguments are left unreported.
   */
  lemma CallsReported(setup: Setup, events: seq<StreamEvent>, end: AgentEnd, index: int)
    ensures var r := Whole(setup, events, end);
            var call := CallAt(r.tracker, index);
            && InOrder(r.emissions)
            && Notes(r.emissions, ArgumentsCompleted, index) <= Notes(r.emissions, Observed, index) <= 1
            && (call.observed <==> Notes(r.emissions, Observed, index) == 1)
            && (Identified(call) ==> call.observed)
            && (call.observed && Complete(setup, call.args) ==> call.completed)
            && r.tracker.observations == |ObservedIn(r.tracker.calls)|
            && r.tracker.completions == |CompletedIn(r.tracker.calls)|
  {
    NoCallsOk(setup);
    var watched := Watch(setup, Reaction(NO_CALLS, []), events);
    WatchKeeps(setup, Reaction(NO_CALLS, []), events);
    FailAllKeeps(setup, watched, PendingCalls(watched.tracker, watched.tracker.order));
    var r := Whole(setup, events, end);
    assert CallOk(setup, CallAt(r.tracker, index),
                  Notes(r.emissions, Observed, index), Notes(r.emissions, ArgumentsCompleted, index));
  }

  /** After a successful run every completed call with an id has been announced by some lifecycle event. */
  lemma NoCallLeftUnexecuted(setup: Setup, events: seq<StreamEvent>, end: AgentEnd, index: int)
    requires Verdict(end).Ok?
    ensures !LeftUnexecuted(Whole(setup, events, end).tracker, index)
  {
    NoCallsOk(setup);
    var watched := Watch(setup, Reaction(NO_CALLS, []), events);
    WatchKeeps(setup, Reaction(NO_CALLS, []), events);
    PendingListed(watched.tracker, watched.tracker.order);
    FailAllKeeps(setup, watched, PendingCalls(watched.tracker, watched.tracker.order));
  }

  /** The details of a diagnostic name its part and call, and carry the arguments once they are complete. */
  lemma NoteTells(setup: Setup, note: NoteKind, index: int, call: Call)
    ensures var details := NoteDetails(setup, note, index, call);
            && Get(details, "partIndex") == VInt(index)
            && Get(details, "toolCallId") == Nullable(call.toolCallId)
            && Get(details, "argumentsComplete") == VBool(Complete(setup, call.args))
            && (Complete(setup, call.args) <==> "toolArguments" in details)
            && Get(details, "toolName") == Nullable(call.toolName)
            && TellsArguments(setup, call.args, Get(details, "toolArguments"), Get(details, "toolArgumentsJson"))
  {
    var details, told := NoteDetails(setup, note, index, call), ArgDetails(setup, call.args);
    assert "toolArguments" in details <==> "toolArguments" in told;
    assert "toolArgumentsJson" in details <==> "toolArgumentsJson" in told;
  }

  /** The kinds of diagnostics go by different codes and stages, and carry the details told above. */
  lemma NotePayloadTells(setup: Setup, note: NoteKind, index: int, call: Call)
    ensures var payload := NotePayload(setup, note, index, call);
            && Get(payload, "details") == VMap(NoteDetails(setup, note, index, call))
            && Get(payload, "code") == VStr(match note
                                             case Observed => "raw_tool_call_observed"
                                             case ArgumentsCompleted => "raw_tool_call_arguments_completed"
                                             case ExecutionMissing => "raw_tool_call_unexecuted")
  {
  }

  /** Arguments are told as the dictionary they are or decode to, or else as text that is not blank. */
  predicate TellsArguments(setup: Setup, args: Option<Args>, parsed: Value, raw: Value) {
    match args
    case None => parsed == VNull && raw == VNull
    case Some(DictArgs(dict)) => parsed == VMap(dict) && raw == VNull
    case Some(TextArgs(text)) =>
      if Strip(text) == "" then parsed == VNull && raw == VNull
      else if setup.decode(Strip(text)).Some? then parsed == VMap(setup.decode(Strip(text)).value) && raw == VNull
      else parsed == VNull && raw == VStr(text)
  }

  /** The failure of a call that was never executed repeats its id, tool and arguments. */
  lemma FailureTells(setup: Setup, call: Call)
    requires call.toolCallId.Some?
    ensures var event := FailureOf(setup, call);
            && event.toolCallId == call.toolCallId.value && event.toolId == setup.toolId(call.toolName)
            && event.phase == Failed && event.errorSummary.Some?
            && (match call.args
                case None => event.inputSummary.None?
                case Some(DictArgs(dict)) => event.inputSummary == Some(setup.summarize(dict))
                case Some(TextArgs(text)) =>
                  if Strip(text) != "" && setup.decode(Strip(text)).Some?
                  then event.inputSummary == Some(setup.summarize(setup.decode(Strip(text)).value))
                  else event.inputSummary.None?)
  {
  }

  /** The call of one part as one event of that part changes it. */
  function Changed(call: Call, e: StreamEvent): Call {
    match e
    case ToolPart(_, name, callId, args) => WithPart(call, name, callId, args)
    case ToolDelta(_, name, callId, args) => WithDelta(call, name, callId, args)
    case _ => call
  }

  lemma PairNotes(e: Emission, note: NoteKind, index: int)
    ensures Notes([e, Flush], note, index) == if IsNote(e, note, index) then 1 else 0
    ensures Notes([Flush], note, index) == 0
  {
    assert [e, Flush][..1] == [e] && [e][..0] == [] && [Flush][..0] == [];
    assert Notes([e], note, index) == Notes([], note, index) + if IsNote(e, note, index) then 1 else 0;
  }

  lemma ReactShape(setup: Setup, t: Tracker, e: StreamEvent)
    requires e.ToolPart? || e.ToolDelta?
    ensures var before := CallAt(t, e.index);
            var call := Changed(before, e);
            React(setup, t, e).emissions ==
              if !before.observed && Identified(call) then [Note(Observed, e.index, call), Flush]
              else if before.observed && !before.completed && Complete(setup, call.args)
              then [Note(ArgumentsCompleted, e.index, call), Flush]
              else [Flush]
  {
  }

  /**
   When a part is reported: it is observed on being identified for the first time, and its arguments
   are completed when they parse for the first time after that. A caution: indices start again with
   every model response, and an index that was observed and completed stays silent, whichever call
   it names by then.
   */
  lemma ReusedIndexUnseen(setup: Setup, t: Tracker, e: StreamEvent)
    requires e.ToolPart? || e.ToolDelta?
    ensures var es, before := React(setup, t, e).emissions, CallAt(t, e.index);
            var call := Changed(before, e);
            && (Notes(es, Observed, e.index) == 1 <==> !before.observed && Identified(call))
            && (Notes(es, ArgumentsCompleted, e.index) == 1 <==>
                  before.observed && !before.completed && Complete(setup, call.args))
            && Notes(es, Observed, e.index) + Notes(es, ArgumentsCompleted, e.index) <= 1
            && (before.observed && before.completed ==> es == [Flush])
  {
    ReactShape(setup, t, e);
    var call := Changed(CallAt(t, e.index), e);
    PairNotes(Note(Observed, e.index, call), Observed, e.index);
    PairNotes(Note(Observed, e.index, call), ArgumentsCompleted, e.index);
    PairNotes(Note(ArgumentsCompleted, e.index, call), Observed, e.index);
    PairNotes(Note(ArgumentsCompleted, e.index, call), ArgumentsCompleted, e.index);
  }

  // ------------------------------------------------- properties of the trace

  lemma OpIsPlain(setup: Setup, e: Emission)
    ensures var op := ToOp(setup, e);
            op.Event? ==>
              && !op.event.IsSegment() && !EndsRun(op.event)
              && !(op.event.ToolLifecycle? && op.event.phase.ToolCancelled?)
  {
    if e.Announce? {
      PayloadTells(e.event);
    }
  }

  /** The stream records neither segments, nor ends of the run, nor cancelled tools. */
  lemma OpsArePlain(setup: Setup, es: seq<Emission>)
    ensures NoSegmentEvents(Ops(setup, es))
    ensures var ops := Ops(setup, es);
            forall i :: 0 <= i < |ops| && ops[i].Event? ==>
              && !EndsRun(ops[i].event)
              && !(ops[i].event.ToolLifecycle? && ops[i].event.phase.ToolCancelled?)
  {
    var ops := Ops(setup, es);
    forall i | 0 <= i < |ops| && ops[i].Event?
      ensures !ops[i].event.IsSegment() && !EndsRun(ops[i].event)
      ensures !(ops[i].event.ToolLifecycle? && ops[i].event.phase.ToolCancelled?)
    {
      OpIsPlain(setup, es[i]);
    }
  }

  /** What the consumer of the queue receives before the end marker. */
  function QueueTrace(setup: Setup, runId: string, events: seq<StreamEvent>, end: AgentEnd): seq<ExecEvent> {
    Output(Fresh(runId), [], Ops(setup, Whole(setup, events, end).emissions))
  }

  /** On every exit path the consumer gets one closed, well-formed trace. */
  lemma QueueWellFormed(setup: Setup, runId: string, events: seq<StreamEvent>, end: AgentEnd)
    ensures Bracketed(QueueTrace(setup, runId, events, end), None)
  {
    OpsArePlain(setup, Whole(setup, events, end).emissions);
    OutputBracketed(runId, Ops(setup, Whole(setup, events, end).emissions));
  }

  /** The text that the model streams, as the handler sees it. */
  function ReceivedText(events: seq<StreamEvent>, k: Kind): string {
    if events == [] then ""
    else
      (match events[0]
       case TextReceived(text) => if k == Assistant then text else ""
       case ThinkingReceived(Some(thought)) => if k == Reasoning then thought else ""
       case _ => "") + ReceivedText(events[1..], k)
  }

  function SaidText(es: seq<Emission>, k: Kind): string {
    if es == [] then "" else (if es[0].Say? && es[0].kind == k then es[0].text else "") + SaidText(es[1..], k)
  }

  lemma {:induction false} SaidTextAppend(a: seq<Emission>, b: seq<Emission>, k: Kind)
    ensures SaidText(a + b, k) == SaidText(a, k) + SaidText(b, k)
  {
    if a == [] {
      assert a + b == b;
    } else {
      assert (a + b)[0] == a[0] && (a + b)[1..] == a[1..] + b;
      SaidTextAppend(a[1..], b, k);
      Associates(if a[0].Say? && a[0].kind == k then a[0].text else "", SaidText(a[1..], k), SaidText(b, k));
    }
  }

  lemma {:induction false} SilentText(es: seq<Emission>, k: Kind)
    requires forall i :: 0 <= i < |es| ==> !es[i].Say?
    ensures SaidText(es, k) == ""
  {
    if es != [] {
      SilentText(es[1..], k);
    }
  }

  lemma ReactText(setup: Setup, t: Tracker, e: StreamEvent, k: Kind)
    ensures SaidText(React(setup, t, e).emissions, k) == ReceivedText([e], k)
  {
    var es := React(setup, t, e).emissions;
    assert [e][1..] == [] && ReceivedText([], k) == "";
    if e.TextReceived? || e.ThinkingReceived? {
      if |es| == 2 {
        assert es[1..] == [Flush];
      }
      SilentText([Flush], k);
    } else {
      SilentText(es, k);
    }
  }

  lemma ReceivedCons(events: seq<StreamEvent>, k: Kind)
    requires events != []
    ensures ReceivedText(events, k) == ReceivedText([events[0]], k) + ReceivedText(events[1..], k)
  {
    assert [events[0]][1..] == [] && ReceivedText([], k) == "";
  }

  lemma {:induction false} WatchText(setup: Setup, r: Reaction, events: seq<StreamEvent>, k: Kind)
    ensures SaidText(Watch(setup, r, events).emissions, k) == SaidText(r.emissions, k) + ReceivedText(events, k)
    decreases |events|
  {
    if events != [] {
      var next := React(setup, r.tracker, events[0]);
      WatchText(setup, Reaction(next.tracker, r.emissions + next.emissions), events[1..], k);
      SaidTextAppend(r.emissions, next.emissions, k);
      ReactText(setup, r.tracker, events[0], k);
      ReceivedCons(events, k);
      Associates(SaidText(r.emissions, k), ReceivedText([events[0]], k), ReceivedText(events[1..], k));
    }
  }

  lemma AnnouncementSilent(es: seq<Emission>, note: Emission, event: ToolEvent, k: Kind)
    requires note.Note?
    ensures SaidText(es + [note, Announce(event), Flush], k) == SaidText(es, k)
  {
    SaidTextAppend(es, [note, Announce(event), Flush], k);
    SilentText([note, Announce(event), Flush], k);
  }

  lemma FailOneText(setup: Setup, r: Reaction, index: int, k: Kind)
    ensures SaidText(FailOne(setup, r, index).emissions, k) == SaidText(r.emissions, k)
  {
    if index in r.tracker.calls && r.tracker.calls[index].toolCallId.Some? {
      var call := r.tracker.calls[index];
      AnnouncementSilent(r.emissions, Note(ExecutionMissing, index, call), FailureOf(setup, call), k);
    }
  }

  lemma {:induction false} FailAllText(setup: Setup, r: Reaction, pending: seq<int>, k: Kind)
    ensures SaidText(FailAll(setup, r, pending).emissions, k) == SaidText(r.emissions, k)
    decreases |pending|
  {
    if pending != [] {
      FailOneText(setup, r, pending[0], k);
      FailAllText(setup, FailOne(setup, r, pending[0]), pending[1..], k);
    }
  }

  lemma {:induction false} OpsText(setup: Setup, es: seq<Emission>, k: Kind)
    ensures RecordedText(Ops(setup, es), k) == SaidText(es, k)
  {
    if es != [] {
      assert Ops(setup, es)[1..] == Ops(setup, es[1..]);
      OpsText(setup, es[1..], k);
    }
  }

  lemma WholeText(setup: Setup, events: seq<StreamEvent>, end: AgentEnd, k: Kind)
    ensures SaidText(Whole(setup, events, end).emissions, k) == ReceivedText(events, k)
  {
    var start := Reaction(NO_CALLS, []);
    var watched := Watch(setup, start, events);
    WatchText(setup, start, events, k);
    FailAllText(setup, watched, PendingCalls(watched.tracker, watched.tracker.order), k);
  }

  lemma TraceOfText(setup: Setup, runId: string, es: seq<Emission>, k: Kind)
    ensures DeltaText(Output(Fresh(runId), [], Ops(setup, es)), k) == SaidText(es, k)
  {
    OpsText(setup, es, k);
    OpsArePlain(setup, es);
    TextIsConserved(runId, Ops(setup, es), k);
  }

  /** The delta payloads in the queue are exactly the text received from the model, on every exit path. */
  lemma QueueKeepsText(setup: Setup, runId: string, events: seq<StreamEvent>, end: AgentEnd, k: Kind)
    ensures DeltaText(QueueTrace(setup, runId, events, end), k) == ReceivedText(events, k)
  {
    WholeText(setup, events, end, k);
    TraceOfText(setup, runId, Whole(setup, events, end).emissions, k);
  }

  // --------------------------------------------------------------- the class

  lemma {:induction false} OpsSnoc(c: Core, pending: seq<ExecEvent>, ops: seq<Op>, op: Op)
    ensures Run(c, ops + [op]) == Apply(Run(c, ops), op).core
    ensures Pending(c, pending, ops + [op])
         == if op.Drain? then [] else Pending(c, pending, ops) + Apply(Run(c, ops), op).events
    ensures Batches(c, pending, ops + [op])
         == Batches(c, pending, ops) + if op.Drain? then Pending(c, pending, ops) else []
    decreases |ops|
  {
    if ops == [] {
      assert [] + [op] == [op] && [op][1..] == [];
    } else {
      assert (ops + [op])[0] == ops[0] && (ops + [op])[1..] == ops[1..] + [op];
      var s := Apply(c, ops[0]);
      OpsSnoc(s.core, if ops[0].Drain? then [] else pending + s.events, ops[1..], op);
    }
  }

  /** Queue items; the end marker is `None`. */
  function Queued(events: seq<ExecEvent>): seq<Option<ExecEvent>> {
    seq(|events|, i requires 0 <= i < |events| => Some(events[i]))
  }

  lemma QueuedAppend(a: seq<ExecEvent>, b: seq<ExecEvent>)
    ensures Queued(a) + Queued(b) == Queued(a + b)
  {
  }

  class EventStream {
    const runId: string
    const setup: Setup
    const buffer: EventBuffer
    const coordinator: Approval.Coordinator
    var queue: seq<Option<ExecEvent>>
    var calls: map<int, Call>
    var order: seq<int>
    var observations: nat
    var completions: nat
    var announced: set<string>
    var failure: Option<AgentFailure>
    var cachedOutput: Option<string>
    ghost var emitted: seq<Emission>

    constructor (runId: string, setup: Setup, buffer: EventBuffer, coordinator: Approval.Coordinator)
      requires buffer.State() == Fresh(runId) && buffer.pending == []
      ensures this.runId == runId && this.setup == setup && this.buffer == buffer && this.coordinator == coordinator
      ensures Valid() && Progress() == Reaction(NO_CALLS, []) && failure.None? && cachedOutput.None?
    {
      this.runId, this.setup, this.buffer, this.coordinator := runId, setup, buffer, coordinator;
      queue, calls, order, observations, completions, announced := [], map[], [], 0, 0, {};
      failure, cachedOutput, emitted := None, None, [];
      new;
      assert Ops(setup, []) == [];
    }

    ghost function Tracked(): Tracker
      reads `calls, `order, `observations, `completions, `announced
    {
      Tracker(calls, order, observations, completions, announced)
    }

    ghost function Progress(): Reaction
      reads this
    {
      Reaction(Tracked(), emitted)
    }

    /** What was done to the buffer so far is in the queue or still pending. */
    ghost predicate Performed(ops: seq<Op>)
      reads `queue, buffer, buffer.factory
    {
      && buffer.State() == Run(Fresh(runId), ops)
      && buffer.pending == Pending(Fresh(runId), [], ops)
      && queue == Queued(Batches(Fresh(runId), [], ops))
    }

    ghost predicate Valid()
      reads `queue, `emitted, buffer, buffer.factory
    {
      Performed(Ops(setup, emitted))
    }

    method AddDelta(kind: Kind, text: string)
      modifies buffer, buffer.factory
      ensures var step := ExecutionEvents.RecordDelta(old(buffer.State()), kind, text);
              buffer.State() == step.core && buffer.pending == old(buffer.pending) + step.events
    {
      if kind == Assistant {
        buffer.RecordAssistantDelta(text);
      } else {
        buffer.RecordReasoningDelta(text);
      }
    }

    method DrainBuffer(ghost sent: seq<ExecEvent>)
      requires queue == Queued(sent)
      modifies `queue, buffer
      ensures queue == Queued(sent + old(buffer.pending)) && buffer.pending == [] && buffer.State() == old(buffer.State())
    {
      QueuedAppend(sent, buffer.pending);
      var drained := buffer.DrainPending();
      queue := queue + Queued(drained);
    }

    method Perform(op: Op, ghost ops: seq<Op>)
      requires Performed(ops)
      modifies `queue, buffer, buffer.factory
      ensures Performed(ops + [op])
    {
      OpsSnoc(Fresh(runId), [], ops, op);
      match op {
      case Delta(kind, text) => AddDelta(kind, text);
      case Event(event) => buffer.Record(event);
      case Drain => DrainBuffer(Batches(Fresh(runId), [], ops));
      }
    }

    method Emit(e: Emission)
      requires Valid()
      modifies `queue, `emitted, buffer, buffer.factory
      ensures Valid() && emitted == old(emitted) + [e]
    {
      ghost var ops := Ops(setup, emitted);
      Perform(ToOp(setup, e), ops);
      emitted := emitted + [e];
      assert Ops(setup, emitted) == ops + [ToOp(setup, e)];
    }

    method Save(index: int, call: Call)
      modifies `calls, `order
      ensures Tracked() == Store(old(Tracked()), index, call)
    {
      if index !in calls {
        order := order + [index];
      }
      calls := calls[index := call];
    }

    method Report(note: NoteKind, index: int, call: Call)
      requires Valid()
      modifies `queue, `emitted, buffer, buffer.factory
      ensures Valid() && emitted == old(emitted) + [Note(note, index, call), Flush]
    {
      Emit(Note(note, index, call));
      Emit(Flush);
    }

    method ReportObserved(index: int, call: Call)
      requires Valid()
      modifies `queue, `emitted, `observations, `completions, `calls, `order, buffer, buffer.factory
      ensures Valid() && emitted == old(emitted) + [Note(Observed, index, call), Flush]
      ensures var complete := Complete(setup, call.args);
              Tracked() == Store(old(Tracked()), index, call.(observed := true, completed := call.completed || complete))
                             .(observations := old(observations) + 1,
                               completions := old(completions) + if complete then 1 else 0)
    {
      Report(Observed, index, call);
      observations := observations + 1;
      if Complete(setup, call.args) {
        completions := completions + 1;
        Save(index, call.(observed := true, completed := true));
      } else {
        Save(index, call.(observed := true));
      }
    }

    method ReportCompleted(index: int, call: Call)
      requires Valid()
      modifies `queue, `emitted, `completions, `calls, `order, buffer, buffer.factory
      ensures Valid() && emitted == old(emitted) + [Note(ArgumentsCompleted, index, call), Flush]
      ensures Tracked() == Store(old(Tracked()), index, call.(completed := true)).(completions := old(completions) + 1)
    {
      Report(ArgumentsCompleted, index, call);
      completions := completions + 1;
      Save(index, call.(completed := true));
    }

    method ObserveCall(index: int, call: Call)
      requires Valid()
      modifies this, buffer, buffer.factory
      ensures Valid() && failure == old(failure) && cachedOutput == old(cachedOutput)
      ensures var r := Track(setup, old(Tracked()), index, call);
              Tracked() == r.tracker && emitted == old(emitted) + (r.emissions + [Flush])
    {
      if !call.observed && Identified(call) {
        ReportObserved(index, call);
      } else if call.observed && !call.completed && Complete(setup, call.args) {
        ReportCompleted(index, call);
      } else {
        Emit(Flush);
        Save(index, call);
      }
    }

    method RecordLifecycle(event: ToolEvent)
      requires Valid()
      modifies this, buffer, buffer.factory
      ensures Valid() && failure == old(failure) && cachedOutput == old(cachedOutput)
      ensures Tracked() == old(Tracked()).(announced := old(announced) + {event.toolCallId})
      ensures emitted == old(emitted) + [Announce(event), Flush]
    {
      announced := announced + {event.toolCallId};
      Emit(Announce(event));
      Emit(Flush);
    }

    method RecordDelta(kind: Kind, text: string)
      requires Valid()
      modifies this, buffer, buffer.factory
      ensures Valid() && failure == old(failure) && cachedOutput == old(cachedOutput) && Tracked() == old(Tracked())
      ensures emitted == old(emitted) + ((if text == "" then [] else [Say(kind, text)]) + [Flush])
    {
      if text != "" {
        Emit(Say(kind, text));
      }
      Emit(Flush);
    }

    method Handle(e: StreamEvent)
      requires Valid()
      modifies this, buffer, buffer.factory
      ensures Valid() && failure == old(failure) && cachedOutput == old(cachedOutput)
      ensures var r := React(setup, old(Tracked()), e);
              Tracked() == r.tracker && emitted == old(emitted) + r.emissions
    {
      match e
      case TextReceived(text) => RecordDelta(Assistant, text);
      case ThinkingReceived(thought) => RecordDelta(Reasoning, if thought.Some? then thought.value else "");
      case ToolPart(index, name, callId, args) =>
        ObserveCall(index, WithPart(if index in calls then calls[index] else UNKNOWN, name, callId, args));
      case ToolDelta(index, name, callId, args) =>
        ObserveCall(index, WithDelta(if index in calls then calls[index] else UNKNOWN, name, callId, args));
      case LifecycleRecorded(event) => RecordLifecycle(event);
      case OtherReceived =>
    }

    method AnnounceMissing(index: int, call: Call, event: ToolEvent)
      requires Valid()
      modifies this, buffer, buffer.factory
      ensures Valid() && failure == old(failure) && cachedOutput == old(cachedOutput)
      ensures Tracked() == old(Tracked()).(announced := old(announced) + {event.toolCallId})
      ensures emitted == old(emitted) + [Note(ExecutionMissing, index, call), Announce(event), Flush]
    {
      Emit(Note(ExecutionMissing, index, call));
      RecordLifecycle(event);
    }

    method FailCall(index: int)
      requires Valid()
      modifies this, buffer, buffer.factory
      ensures Valid() && failure == old(failure) && cachedOutput == old(cachedOutput)
      ensures Progress() == FailOne(setup, old(Progress()), index)
    {
      if index in calls && calls[index].toolCallId.Some? {
        AnnounceMissing(index, calls[index], FailureOf(setup, calls[index]));
      }
    }

    /** Fails every call whose arguments became complete but which no tool ever announced. */
    method FailUnexecuted()
      requires Valid()
      modifies this, buffer, buffer.factory
      ensures Valid() && failure == old(failure) && cachedOutput == old(cachedOutput)
      ensures Progress() == FinalCheck(setup, old(Progress()))
    {
      var pending := PendingCalls(Tracker(calls, order, observations, completions, announced), order);
      for i := 0 to |pending|
        invariant Valid() && failure == old(failure) && cachedOutput == old(cachedOutput)
        invariant FailAll(setup, old(Progress()), pending) == FailAll(setup, Progress(), pending[i..])
      {
        assert pending[i..][0] == pending[i] && pending[i..][1..] == pending[i + 1..];
        FailCall(pending[i]);
      }
    }

    method Watched(events: seq<StreamEvent>)
      requires Valid()
      modifies this, buffer, buffer.factory
      ensures Valid() && failure == old(failure) && cachedOutput == old(cachedOutput)
      ensures Progress() == Watch(setup, old(Progress()), events)
    {
      for i := 0 to |events|
        invariant Valid() && failure == old(failure) && cachedOutput == old(cachedOutput)
        invariant Watch(setup, old(Progress()), events) == Watch(setup, Progress(), events[i..])
      {
        assert events[i..][0] == events[i] && events[i..][1..] == events[i + 1..];
        Handle(events[i]);
      }
    }

    /** Both segments finished and everything flushed. */
    method CloseSegments(ghost ops: seq<Op>)
      requires Performed(ops)
      modifies `queue, buffer, buffer.factory
      ensures queue == Queued(Output(Fresh(runId), [], ops))
    {
      ghost var c := Run(Fresh(runId), ops);
      buffer.FinishAssistantSegment();
      buffer.FinishReasoningSegment();
      assert buffer.pending == Pending(Fresh(runId), [], ops) + Close(c).events;
      DrainBuffer(Batches(Fresh(runId), [], ops));
    }

    /** The exit path common to success, failure and cancellation. */
    method Finish(now: int)
      requires Valid() && coordinator.Valid(now)
      modifies this, buffer, buffer.factory, coordinator
      ensures queue == Queued(Output(Fresh(runId), [], Ops(setup, old(emitted)))) + [None]
      ensures coordinator.Valid(now)
      ensures coordinator.Model(now) == Approval.Next(old(coordinator.Model(now)), Approval.StepDiscardRun(runId))
      ensures Progress() == old(Progress()) && failure == old(failure) && cachedOutput == old(cachedOutput)
    {
      var discarded := coordinator.DiscardRun(runId, now);
      CloseSegments(Ops(setup, emitted));
      queue := queue + [None];
    }

    /** Keeps the output of a run that produced text, and otherwise says why there is none. */
    method Conclude(end: AgentEnd)
      requires Valid() && failure.None? && cachedOutput.None?
      modifies this, buffer, buffer.factory
      ensures Valid()
      ensures Progress() == if Verdict(end).Ok? then FinalCheck(setup, old(Progress())) else old(Progress())
      ensures failure == (if Verdict(end).Ok? then None else Some(Verdict(end).error))
      ensures cachedOutput == (if Verdict(end).Ok? then Some(Verdict(end).value) else None)
      ensures match end
              case Finished(Some(text)) =>
                if Strip(text) != "" then cachedOutput == Some(Strip(text)) && failure.None?
                else cachedOutput.None? && failure == Some(EmptyText)
              case Finished(None) => cachedOutput.None? && failure == Some(NotText)
              case Raised => cachedOutput.None? && failure == Some(FromAgent)
              case WasCancelled => cachedOutput.None? && failure == Some(CancelledRun)
    {
      match end
      case Raised => failure := Some(FromAgent);
      case WasCancelled => failure := Some(CancelledRun);
      case Finished(None) => failure := Some(NotText);
      case Finished(Some(text)) =>
        if Strip(text) == "" {
          failure := Some(EmptyText);
        } else {
          cachedOutput := Some(Strip(text));
          FailUnexecuted();
        }
    }

    method RunAgent(events: seq<StreamEvent>, end: AgentEnd, now: int)
      requires Valid() && Progress() == Reaction(NO_CALLS, []) && failure.None? && cachedOutput.None?
      requires coordinator.Valid(now)
      modifies this, buffer, buffer.factory, coordinator
      ensures queue == Queued(QueueTrace(setup, runId, events, end)) + [None]
      ensures Tracked() == Whole(setup, events, end).tracker
      ensures failure == (if Verdict(end).Ok? then None else Some(Verdict(end).error))
      ensures cachedOutput == (if Verdict(end).Ok? then Some(Verdict(end).value) else None)
      ensures coordinator.Valid(now)
      ensures coordinator.Model(now) == Approval.Next(old(coordinator.Model(now)), Approval.StepDiscardRun(runId))
    {
      Watched(events);
      Conclude(end);
      Finish(now);
    }
  }
}
