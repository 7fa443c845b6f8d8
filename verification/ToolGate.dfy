/**
 Tool execution behind the approval gate. Calls of one or more runs interleave with each other,
 with decisions, timers, discards and cancellations; a call is atomic between its two awaits.
 */
module ToolGate {
  import opened Common
  import opened Text
  import opened Approval
  import opened ToolLifecycle

  // ------------------------------------------------------------- permissions

  datatype Permissions = Permissions(
    defaultMode: Mode,
    modes: Option<map<string, Mode>>,
    seconds: Option<map<string, int>>,
    actions: Option<map<string, TimeoutAction>>)
  {
    function ModeOf(toolId: string): Mode {
      if modes.Some? && toolId in modes.value then modes.value[toolId] else defaultMode
    }

    /** A timeout is handed to the coordinator in delay mode only. */
    function SecondsOf(toolId: string): Option<int> {
      if ModeOf(toolId) == Delay && seconds.Some? && toolId in seconds.value then Some(seconds.value[toolId]) else None
    }

    function ActionOf(toolId: string): Option<TimeoutAction> {
      if ModeOf(toolId) == Delay && actions.Some? && toolId in actions.value then Some(actions.value[toolId]) else None
    }
  }

  /** The policy gives a tool a mode: by listing it, or by default if it is not listed. */
  predicate Gives(p: Permissions, toolId: string, mode: Mode) {
    if p.modes.Some? && toolId in p.modes.value then p.modes.value[toolId] == mode else p.defaultMode == mode
  }

  /** The policy's own words on how long an approval may take and what happens then; they count in delay mode only. */
  predicate Timed(p: Permissions, toolId: string, timeout: Option<int>, action: Option<TimeoutAction>) {
    if !Gives(p, toolId, Delay) then timeout.None? && action.None?
    else
      && (timeout.Some? <==> p.seconds.Some? && toolId in p.seconds.value)
      && (timeout.Some? ==> timeout.value == p.seconds.value[toolId])
      && (action.Some? <==> p.actions.Some? && toolId in p.actions.value)
      && (action.Some? ==> action.value == p.actions.value[toolId])
  }

  lemma ModesGiven(p: Permissions, toolId: string)
    ensures Gives(p, toolId, p.ModeOf(toolId))
    ensures Timed(p, toolId, p.SecondsOf(toolId), p.ActionOf(toolId))
  {
  }

  /** One tool call; `contract` says that the tool's kind obliges it to report a status. */
  datatype CallSpec = CallSpec(
    runId: Option<string>,
    callId: Option<string>,
    toolId: string,
    registered: bool,
    enabled: bool,
    contract: bool,
    permissions: Permissions)
  {
    /** Missing ids fall back to constants, so different calls may share a key. */
    function Key(): Key {
      Approval.Key(if runId.Some? && runId.value != "" then runId.value else "run-unknown",
                   if callId.Some? && callId.value != "" then callId.value else toolId + ":call")
    }

    function Mode(): Mode {
      permissions.ModeOf(toolId)
    }

    function Seconds(): Option<int> {
      permissions.SecondsOf(toolId)
    }

    function Action(): Option<TimeoutAction> {
      permissions.ActionOf(toolId)
    }
  }

  // ------------------------------------------------------------ tool results

  /** `displayable` says whether summarising and encoding the result for display succeeds. */
  datatype Outcome = ToolError(code: string) | OtherException | Returned(result: Payload, displayable: bool)

  /** How a call is over for its caller; `Escaped` is an exception raised outside every handler. */
  datatype End =
    | Succeeded(result: Payload)
    | AwaitingInput(form: Payload)
    | FailedWith(code: string)
    | ContractError(result: Payload)
    | Escaped
    | CancelledCall

  predicate Blank(v: Value) {
    !v.VStr? || Strip(v.s) == ""
  }

  /** The verdict on a contract tool's result, when that is not a success. */
  function ContractFailure(result: Payload): Option<End> {
    match Get(result, "status")
    case VList(_) => Some(Escaped)
    case VMap(_) => Some(Escaped)
    case VStr(status) =>
      if status == "success" then None
      else if status != "error" then Some(FailedWith("tool_execution_failed"))
      else
        var error := Get(result, "error");
        if !error.VMap? || Blank(Get(error.m, "code")) || Blank(Get(error.m, "message"))
        then Some(FailedWith("tool_execution_failed"))
        else Some(ContractError(result))
    case _ => Some(FailedWith("tool_execution_failed"))
  }

  /** Reading the new root out of a result fails on anything but nested maps. */
  predicate RootReadable(result: Payload) {
    "output" !in result ||
    (result["output"].VMap? && ("data" !in result["output"].m || result["output"].m["data"].VMap?))
  }

  function NewRoot(result: Payload): Option<string>
    requires RootReadable(result)
  {
    if "output" !in result || "data" !in result["output"].m then None
    else
      var root := Get(result["output"].m["data"].m, "currentRoot");
      if Blank(root) then None else Some(Strip(root.s))
  }

  /** A readable result of the root tool that names a root. */
  predicate SwitchesRoot(spec: CallSpec, outcome: Outcome) {
    && spec.toolId == "tool.fs.switch_root" && outcome.Returned?
    && (spec.contract ==> ContractFailure(outcome.result).None?)
    && RootReadable(outcome.result) && NewRoot(outcome.result).Some?
  }

  function EndOf(spec: CallSpec, outcome: Outcome): End {
    match outcome
    case ToolError(code) => FailedWith(code)
    case OtherException => FailedWith("tool_execution_failed")
    case Returned(result, displayable) =>
      var failure := if spec.contract then ContractFailure(result) else None;
      if failure.Some? then failure.value
      else if (spec.toolId == "tool.fs.switch_root" && !RootReadable(result)) || !displayable then Escaped
      else if spec.toolId == "tool.request-user-form" && Get(result, "formRequest").VMap?
      then AwaitingInput(Get(result, "formRequest").m)
      else Succeeded(result)
  }

  /** The last lifecycle phase that an ending announces. */
  function FinalPhase(end: End): seq<Phase> {
    match end
    case Succeeded(_) => [Phase.Completed]
    case AwaitingInput(_) => [Phase.Completed]
    case FailedWith(_) => [Phase.Failed]
    case ContractError(_) => [Phase.Failed]
    case Escaped => []
    case CancelledCall => []
  }

  // --------------------------------------------------------------- one call

  datatype Pc = WaitingFor(future: nat) | Running | Ended(end: End)

  /** `approval` is the future the call awaited, `phases` what it announced, `ran` whether its body started. */
  datatype Call = Call(spec: CallSpec, pc: Pc, approval: Option<nat>, phases: seq<Phase>, ran: bool)

  datatype Gate = Gate(coordinator: State, calls: seq<Call>)

  datatype Moved = Moved(coordinator: State, call: Call)

  /** A new call up to its first await. */
  function Enter(s: State, spec: CallSpec): Moved {
    if !spec.registered then Moved(s, Call(spec, Ended(FailedWith("tool_not_found")), None, [Phase.Failed], false))
    else if !spec.enabled then
      Moved(s, Call(spec, Ended(FailedWith("tool_not_enabled")), None, [Started, Phase.Failed], false))
    else if spec.Mode() == Allow then Moved(s, Call(spec, Running, None, [Started], true))
    else
      Moved(CreateRequest(s, spec.Key(), spec.toolId, spec.Mode(), spec.Seconds(), spec.Action()),
            Call(spec, WaitingFor(|s.futures|), Some(|s.futures|), [Started, WaitingApproval], false))
  }

  /** A waiting call goes on once its future has settled. */
  function Resume(s: State, c: Call): Moved {
    if !c.pc.WaitingFor? || c.pc.future >= |s.futures| then Moved(s, c)
    else match s.futures[c.pc.future]
      case Waiting => Moved(s, c)
      case Cancelled => Moved(Discard(s, {c.spec.Key()}), c.(pc := Ended(CancelledCall)))
      case Done(r) =>
        if r.decision == Approved then Moved(s, c.(pc := Running, ran := true))
        else Moved(s, c.(pc := Ended(FailedWith("tool_approval_rejected")), phases := c.phases + [Phase.Failed]))
  }

  /** The tool's body returns or raises. */
  function Complete(c: Call, outcome: Outcome): Call {
    if !c.pc.Running? then c
    else
      var end := EndOf(c.spec, outcome);
      c.(pc := Ended(end), phases := c.phases + FinalPhase(end))
  }

  /** The task of a call is cancelled: the exception arrives at its await. */
  function CancelTask(s: State, c: Call): Moved {
    match c.pc
    case WaitingFor(f) =>
      Moved(Discard(Next(s, StepCancelWaiter(f)), {c.spec.Key()}), c.(pc := Ended(CancelledCall)))
    case Running => Moved(s, c.(pc := Ended(CancelledCall)))
    case Ended(_) => Moved(s, c)
  }

  datatype GateStep =
    | StepEnter(spec: CallSpec)
    | StepResume(call: nat)
    | StepComplete(call: nat, outcome: Outcome)
    | StepCancelTask(call: nat)
    | StepCoordinator(step: Step)

  function Replace(g: Gate, i: nat, m: Moved): Gate
    requires i < |g.calls|
  {
    Gate(m.coordinator, g.calls[i := m.call])
  }

  function GateNext(g: Gate, step: GateStep): Gate {
    match step
    case StepEnter(spec) =>
      var m := Enter(g.coordinator, spec);
      Gate(m.coordinator, g.calls + [m.call])
    case StepResume(i) => if i < |g.calls| then Replace(g, i, Resume(g.coordinator, g.calls[i])) else g
    case StepComplete(i, outcome) =>
      if i < |g.calls| then Replace(g, i, Moved(g.coordinator, Complete(g.calls[i], outcome))) else g
    case StepCancelTask(i) => if i < |g.calls| then Replace(g, i, CancelTask(g.coordinator, g.calls[i])) else g
    case StepCoordinator(s) => g.(coordinator := Next(g.coordinator, s))
  }

  function GateRun(g: Gate, steps: seq<GateStep>): Gate
    decreases |steps|
  {
    if steps == [] then g else GateRun(GateNext(g, steps[0]), steps[1..])
  }

  const CLOSED := Gate(INITIAL, [])

  // -------------------------------------------------------------- invariants

  /** The request that the gate makes for a call, apart from its time. */
  predicate Asks(request: Request, spec: CallSpec) {
    && request.key == spec.Key() && request.toolId == spec.toolId && request.mode == spec.Mode()
    && request.timeoutSeconds == spec.Seconds() && request.timeoutAction == spec.Action()
  }

  /** What a call that is not over has announced. */
  function Announced(c: Call): seq<Phase> {
    if c.approval.Some? then [Started, WaitingApproval] else [Started]
  }

  predicate Gated(spec: CallSpec) {
    spec.registered && spec.enabled && spec.Mode() != Allow
  }

  ghost predicate CallInv(s: State, c: Call) {
    && (c.approval.Some? <==> Gated(c.spec))
    && (c.approval.Some? ==>
          c.approval.value < |s.futures| == |s.requests| && Asks(s.requests[c.approval.value], c.spec))
    && (c.pc.WaitingFor? ==> c.approval == Some(c.pc.future) && !c.ran)
    && (c.pc.Running? ==> c.ran)
    && (c.ran ==>
          && c.spec.registered && c.spec.enabled
          && (c.approval.Some? ==>
                s.futures[c.approval.value].Done? && s.futures[c.approval.value].resolution.decision == Approved))
    && (match c.pc
        case Ended(end) =>
          if c.spec.registered then c.phases == Announced(c) + FinalPhase(end)
          else c.phases == [Phase.Failed] && end == FailedWith("tool_not_found")
        case _ => c.spec.registered && c.phases == Announced(c))
  }

  ghost predicate GateInv(g: Gate) {
    && Inv(g.coordinator)
    && forall i :: 0 <= i < |g.calls| ==> CallInv(g.coordinator, g.calls[i])
  }

  /** Coordinator steps of others keep what is known of a call: outcomes of futures are final. */
  lemma CallInvLasts(s: State, s': State, c: Call)
    requires CallInv(s, c) && Settles(s, s') && |s'.futures| == |s'.requests|
    ensures CallInv(s', c)
  {
  }

  lemma EnterKeeps(s: State, spec: CallSpec)
    requires Inv(s)
    ensures var m := Enter(s, spec); Inv(m.coordinator) && Settles(s, m.coordinator) && CallInv(m.coordinator, m.call)
  {
    var create := StepCreate(spec.Key(), spec.toolId, spec.Mode(), spec.Seconds(), spec.Action());
    NextInv(s, create);
    NextSettles(s, create);
  }

  /** A call may go on, or be over, in a later state; its approval and request stay what they were. */
  lemma DiscardKeeps(s: State, key: Key)
    requires Inv(s)
    ensures var s' := Discard(s, {key}); Inv(s') && Settles(s, s') && |s'.futures| == |s'.requests|
  {
    NextInv(s, StepDiscard(key));
    NextSettles(s, StepDiscard(key));
  }

  lemma CancelledKeeps(s: State, s': State, c: Call)
    requires CallInv(s, c) && Settles(s, s') && |s'.futures| == |s'.requests| && !c.pc.Ended?
    ensures CallInv(s', c.(pc := Ended(CancelledCall)))
  {
    CallInvLasts(s, s', c);
    assert c.phases + FinalPhase(CancelledCall) == c.phases;
  }

  lemma ResumeKeeps(s: State, c: Call)
    requires Inv(s) && CallInv(s, c)
    ensures var m := Resume(s, c); Inv(m.coordinator) && Settles(s, m.coordinator) && CallInv(m.coordinator, m.call)
  {
    if c.pc.WaitingFor? && c.pc.future < |s.futures| && s.futures[c.pc.future].Cancelled? {
      DiscardKeeps(s, c.spec.Key());
      CancelledKeeps(s, Discard(s, {c.spec.Key()}), c);
    }
  }

  lemma CancelTaskKeeps(s: State, c: Call)
    requires Inv(s) && CallInv(s, c)
    ensures var m := CancelTask(s, c); Inv(m.coordinator) && Settles(s, m.coordinator) && CallInv(m.coordinator, m.call)
  {
    if c.pc.WaitingFor? {
      var mid := Next(s, StepCancelWaiter(c.pc.future));
      NextInv(s, StepCancelWaiter(c.pc.future));
      NextSettles(s, StepCancelWaiter(c.pc.future));
      DiscardKeeps(mid, c.spec.Key());
      SettlesTwice(s, mid, Discard(mid, {c.spec.Key()}));
      CancelledKeeps(s, Discard(mid, {c.spec.Key()}), c);
    } else if c.pc.Running? {
      CancelledKeeps(s, s, c);
    }
  }

  lemma SettlesTwice(s: State, mid: State, s': State)
    requires Settles(s, mid) && Settles(mid, s')
    ensures Settles(s, s')
  {
  }

  lemma GateNextKeeps(g: Gate, step: GateStep)
    requires GateInv(g)
    ensures GateInv(GateNext(g, step))
  {
    var g' := GateNext(g, step);
    var s, s' := g.coordinator, g'.coordinator;
    match step {
      case StepEnter(spec) => EnterKeeps(s, spec);
      case StepResume(i) => if i < |g.calls| { ResumeKeeps(s, g.calls[i]); }
      case StepComplete(i, outcome) =>
      case StepCancelTask(i) => if i < |g.calls| { CancelTaskKeeps(s, g.calls[i]); }
      case StepCoordinator(t) =>
        NextInv(s, t);
        NextSettles(s, t);
    }
    forall i | 0 <= i < |g'.calls| ensures CallInv(s', g'.calls[i]) {
      if i < |g.calls| {
        CallInvLasts(s, s', g.calls[i]);
      }
    }
  }

  lemma {:induction false} GateRunKeeps(g: Gate, steps: seq<GateStep>)
    requires GateInv(g)
    ensures GateInv(GateRun(g, steps))
    decreases |steps|
  {
    if steps != [] {
      GateNextKeeps(g, steps[0]);
      GateRunKeeps(GateNext(g, steps[0]), steps[1..]);
    }
  }

  // --------------------------------------------------------------- main theorems

  /**
   In every interleaving, a body runs only if its tool is registered and enabled and is either
   allowed or approved: by a person, or by a timeout in delay mode that the policy lets approve.
   */
  lemma BodyRunsOnlyIfAllowed(steps: seq<GateStep>, i: nat)
    requires i < |GateRun(CLOSED, steps).calls| && GateRun(CLOSED, steps).calls[i].ran
    ensures var g := GateRun(CLOSED, steps);
            var c := g.calls[i];
            && c.spec.registered && c.spec.enabled
            && (c.spec.Mode() != Allow ==>
                  && c.approval.Some? && c.approval.value < |g.coordinator.futures|
                  && var f := g.coordinator.futures[c.approval.value];
                  && f.Done? && f.resolution.decision == Approved
                  && f.resolution.key == c.spec.Key() && f.resolution.toolId == c.spec.toolId
                  && (f.resolution.source == Timeout ==>
                        c.spec.Mode() == Delay && c.spec.Action() == Some(ApproveOnTimeout)))
    ensures var g := GateRun(CLOSED, steps);
            var c := g.calls[i];
            || Gives(c.spec.permissions, c.spec.toolId, Allow)
            || (&& c.approval.Some? && c.approval.value < |g.coordinator.futures|
                && var f := g.coordinator.futures[c.approval.value];
                && f.Done? && f.resolution.decision == Approved && f.resolution.toolId == c.spec.toolId
                && (f.resolution.source == Timeout ==> TimeoutApproves(c.spec.permissions, c.spec.toolId)))
  {
    GateRunKeeps(CLOSED, steps);
    var c := GateRun(CLOSED, steps).calls[i];
    ModesGiven(c.spec.permissions, c.spec.toolId);
  }

  /** The policy delays the tool and lists it for approval by timeout. */
  predicate TimeoutApproves(p: Permissions, toolId: string) {
    Gives(p, toolId, Delay) && p.actions.Some? && toolId in p.actions.value && p.actions.value[toolId] == ApproveOnTimeout
  }

  /** What the gate asks for a call, by the policy: the key and tool of the call, its mode, and its timeout. */
  lemma ApprovalAsked(steps: seq<GateStep>, i: nat)
    requires i < |GateRun(CLOSED, steps).calls|
    ensures var g := GateRun(CLOSED, steps);
            var c := g.calls[i];
            && (c.approval.Some? <==> c.spec.registered && c.spec.enabled && !Gives(c.spec.permissions, c.spec.toolId, Allow))
            && (c.approval.Some? ==>
                  && c.approval.value < |g.coordinator.requests|
                  && var request := g.coordinator.requests[c.approval.value];
                  && Keyed(request.key, c.spec) && request.toolId == c.spec.toolId
                  && Gives(c.spec.permissions, c.spec.toolId, request.mode)
                  && Timed(c.spec.permissions, c.spec.toolId, request.timeoutSeconds, request.timeoutAction))
  {
    GateRunKeeps(CLOSED, steps);
    var c := GateRun(CLOSED, steps).calls[i];
    ModesGiven(c.spec.permissions, c.spec.toolId);
  }

  /** How a call is refused: unknown tools before anything is announced, disabled ones after their start. */
  lemma EnterTells(s: State, spec: CallSpec)
    ensures var m := Enter(s, spec);
            if !spec.registered then
              m.coordinator == s && m.call.pc == Ended(FailedWith("tool_not_found")) && m.call.phases == [Phase.Failed]
            else if !spec.enabled then
              m.coordinator == s && m.call.pc == Ended(FailedWith("tool_not_enabled")) && m.call.phases == [Started, Phase.Failed]
            else if Gives(spec.permissions, spec.toolId, Allow) then
              m.coordinator == s && m.call.pc.Running? && m.call.ran && m.call.phases == [Started]
            else
              && m.call.pc == WaitingFor(|s.futures|) && !m.call.ran && m.call.phases == [Started, WaitingApproval]
              && |m.coordinator.futures| == |s.futures| + 1 && m.coordinator.futures[|s.futures|].Waiting?
  {
    ModesGiven(spec.permissions, spec.toolId);
  }

  /** A waiting call that is answered goes on as the answer says. */
  lemma ResumeTells(s: State, c: Call)
    requires c.pc.WaitingFor? && c.pc.future < |s.futures| && s.futures[c.pc.future].Done?
    ensures var m, decision := Resume(s, c), s.futures[c.pc.future].resolution.decision;
            && m.coordinator == s
            && (decision == Approved ==> m.call.pc.Running? && m.call.ran && m.call.phases == c.phases)
            && (decision == Rejected ==>
                  m.call.pc == Ended(FailedWith("tool_approval_rejected")) && m.call.ran == c.ran
                  && m.call.phases == c.phases + [Phase.Failed])
  {
  }

  /** A call that is cancelled while it waits gives up its future and the request under its key, and no other. */
  lemma CancelTells(steps: seq<GateStep>, i: nat)
    requires i < |GateRun(CLOSED, steps).calls| && GateRun(CLOSED, steps).calls[i].pc.WaitingFor?
    ensures var g := GateRun(CLOSED, steps);
            var c, g' := g.calls[i], GateNext(g, StepCancelTask(i));
            var f, key := c.pc.future, c.spec.Key();
            && f < |g.coordinator.futures| == |g'.coordinator.futures|
            && (g.coordinator.futures[f].Waiting? ==> g'.coordinator.futures[f].Cancelled?)
            && g'.coordinator.table == g.coordinator.table - {key}
            && (forall j | 0 <= j < |g.coordinator.futures| && j != f ::
                  (key in g.coordinator.table && g.coordinator.table[key].future == j)
                  || g'.coordinator.futures[j] == g.coordinator.futures[j])
            && i < |g'.calls| && g'.calls[i] == c.(pc := Ended(CancelledCall))
  {
    GateRunKeeps(CLOSED, steps);
  }

  /** The key holds the call's own ids; a missing or empty one is replaced. */
  predicate Keyed(key: Key, spec: CallSpec) {
    && (match spec.runId
        case Some(id) => key.runId == if id == "" then "run-unknown" else id
        case None => key.runId == "run-unknown")
    && (match spec.callId
        case Some(id) => key.toolCallId == if id == "" then spec.toolId + ":call" else id
        case None => key.toolCallId == spec.toolId + ":call")
  }

  predicate Closes(phases: seq<Phase>) {
    || phases == [Phase.Failed]
    || phases == [Started, Phase.Completed] || phases == [Started, Phase.Failed]
    || phases == [Started, WaitingApproval, Phase.Completed] || phases == [Started, WaitingApproval, Phase.Failed]
  }

  lemma ClosesShape(announced: seq<Phase>, last: seq<Phase>)
    requires announced == [Started] || announced == [Started, WaitingApproval]
    requires last == [] || last == [Phase.Completed] || last == [Phase.Failed]
    ensures Closes(announced + last) <==> last != []
    ensures Phase.Completed in announced + last <==> last == [Phase.Completed]
  {
    var phases := announced + last;
    if last == [] {
      assert phases == announced;
    } else {
      assert phases[|announced|] == last[0];
      if announced == [Started] {
        assert phases == [Started, last[0]];
      } else {
        assert phases == [Started, WaitingApproval, last[0]];
      }
    }
  }

  /**
   Every execution announces `failed`, or `started`, possibly `waiting_approval`, and exactly one
   of `completed` and `failed`; except that nothing more is announced after a cancellation or after
   an exception that the result of the tool provokes outside the handlers.
   */
  lemma LifecycleCloses(steps: seq<GateStep>, i: nat)
    requires i < |GateRun(CLOSED, steps).calls|
    ensures var c := GateRun(CLOSED, steps).calls[i];
            && (Closes(c.phases) <==> c.pc.Ended? && !c.pc.end.Escaped? && !c.pc.end.CancelledCall?)
            && (c.phases != [] && c.phases[0] == Phase.Failed <==> !c.spec.registered)
            && (WaitingApproval in c.phases <==> Gated(c.spec))
            && (Phase.Completed in c.phases <==> c.pc.Ended? && (c.pc.end.Succeeded? || c.pc.end.AwaitingInput?))
  {
    GateRunKeeps(CLOSED, steps);
    var c := GateRun(CLOSED, steps).calls[i];
    assert CallInv(GateRun(CLOSED, steps).coordinator, c);
    if c.spec.registered {
      ClosesShape(Announced(c), if c.pc.Ended? then FinalPhase(c.pc.end) else []);
    }
  }

  /** When exactly the result of a tool that ran makes an exception escape. */
  lemma EscapesExactly(spec: CallSpec, outcome: Outcome)
    ensures EndOf(spec, outcome).Escaped? <==>
      && outcome.Returned?
      && var status := Get(outcome.result, "status");
         if spec.contract && (status.VList? || status.VMap?) then true
         else
           && (spec.contract ==> status == VStr("success"))
           && ((spec.toolId == "tool.fs.switch_root" && !RootReadable(outcome.result)) || !outcome.displayable)
    ensures EndOf(spec, outcome).ContractError? ==> EndOf(spec, outcome).result == outcome.result
  {
  }

  /** The result is reported as an error in full: with a code and a message that are not blank. */
  predicate TellsError(result: Payload) {
    && Get(result, "status") == VStr("error") && Get(result, "error").VMap?
    && var error := Get(result, "error").m;
    && Get(error, "code").VStr? && Strip(Get(error, "code").s) != ""
    && Get(error, "message").VStr? && Strip(Get(error, "message").s) != ""
  }

  /** How a call is over when nothing escapes: what makes it a failure, an error, a form or a success. */
  lemma EndTells(spec: CallSpec, outcome: Outcome)
    requires !EndOf(spec, outcome).Escaped?
    ensures match outcome
            case ToolError(code) => EndOf(spec, outcome) == FailedWith(code)
            case OtherException => EndOf(spec, outcome) == FailedWith("tool_execution_failed")
            case Returned(result, _) =>
              var end := EndOf(spec, outcome);
              if spec.contract && Get(result, "status") != VStr("success") then
                end == if TellsError(result) then ContractError(result) else FailedWith("tool_execution_failed")
              else if spec.toolId == "tool.request-user-form" && Get(result, "formRequest").VMap?
              then end == AwaitingInput(Get(result, "formRequest").m)
              else end == Succeeded(result)
  {
  }

  /** Which root a result names: a text that is not blank, two maps down. */
  lemma RootTells(result: Payload)
    requires RootReadable(result)
    ensures NewRoot(result).Some? <==>
      && Get(result, "output").VMap? && Get(Get(result, "output").m, "data").VMap?
      && var root := Get(Get(Get(result, "output").m, "data").m, "currentRoot");
      && root.VStr? && Strip(root.s) != "" && NewRoot(result) == Some(Strip(root.s))
  {
  }

  /** A contract tool whose status is a list: its call starts and never announces an end. */
  lemma ListStatusEscapes(permissions: Permissions)
    requires permissions.ModeOf("tool") == Allow
    ensures var spec := CallSpec(Some("run"), Some("call"), "tool", true, true, true, permissions);
            var steps := [StepEnter(spec), StepComplete(0, Returned(map["status" := VList([])], true))];
            var g := GateRun(CLOSED, steps);
            |g.calls| == 1 && g.calls[0].ran && g.calls[0].pc == Ended(Escaped) && g.calls[0].phases == [Started]
  {
    var spec := CallSpec(Some("run"), Some("call"), "tool", true, true, true, permissions);
    var complete := StepComplete(0, Returned(map["status" := VList([])], true));
    var g := GateNext(CLOSED, StepEnter(spec));
    assert g.calls == [Call(spec, Running, None, [Started], true)];
    assert [StepEnter(spec), complete][1..] == [complete] && [complete][1..] == [];
    assert GateRun(CLOSED, [StepEnter(spec), complete]) == GateRun(g, [complete]) == GateRun(GateNext(g, complete), []);
  }

  // -------------------------------------------------- waiting and reused keys

  /** The request behind a future is still the one registered under its key. */
  predicate Held(s: State, f: nat) {
    f < |s.requests| && s.requests[f].key in s.table && s.table[s.requests[f].key].future == f
  }

  ghost predicate AllHeld(s: State) {
    forall f :: 0 <= f < |s.futures| && s.futures[f].Waiting? ==> Held(s, f)
  }

  predicate ReplacesWaiting(s: State, key: Key) {
    key in s.table && s.table[key].future < |s.futures| && s.futures[s.table[key].future].Waiting?
  }

  /** Reusing the key of a request somebody waits for is exactly what orphans a waiter. */
  lemma HeldUnlessReused(s: State, step: Step)
    requires Inv(s) && AllHeld(s)
    ensures AllHeld(Next(s, step)) <==> !(step.StepCreate? && ReplacesWaiting(s, step.key))
  {
    var s' := Next(s, step);
    if step.StepCreate? {
      if ReplacesWaiting(s, step.key) {
        assert EntryOk(s, step.key);
        var f := s.table[step.key].future;
        assert s'.futures[f].Waiting? && !Held(s', f);
      }
    } else {
      forall f | 0 <= f < |s'.futures| && s'.futures[f].Waiting? ensures Held(s', f) {
        StaysHeld(s, step, f);
      }
    }
  }

  lemma FireHolds(s: State, t: nat, f: nat)
    requires Inv(s) && f < |s.futures| && Held(s, f)
    requires t < |s.timers| && s.timers[t].armed && s.timers[t].fireAt <= s.now
    requires f < |Next(s, StepFire(t)).futures| && Next(s, StepFire(t)).futures[f].Waiting?
    ensures Held(Next(s, StepFire(t)), f)
  {
    FireInv(s, t);
    assert EntryOk(s, s.requests[f].key);
    if s.timers[t].key in s.table {
      assert EntryOk(s, s.timers[t].key);
    }
  }

  lemma DiscardHolds(s: State, keys: set<Key>, f: nat)
    requires Inv(s) && f < |s.futures| && Held(s, f) && Discard(s, keys).futures[f].Waiting?
    ensures Held(Discard(s, keys), f)
  {
    var key := s.requests[f].key;
    assert key in keys ==> UsesFuture(s, keys, f);
  }

  lemma ResolveHolds(s: State, key: Key, decision: Decision, f: nat)
    requires Inv(s) && f < |s.futures| && Held(s, f) && key in s.table
    requires Next(s, StepResolve(key, decision)).futures[f].Waiting?
    ensures Held(Next(s, StepResolve(key, decision)), f)
  {
    assert EntryOk(s, key) && EntryOk(s, s.requests[f].key);
  }

  lemma StaysHeld(s: State, step: Step, f: nat)
    requires Inv(s) && !step.StepCreate? && f < |s.futures| && Held(s, f)
    requires f < |Next(s, step).futures| && Next(s, step).futures[f].Waiting?
    ensures Held(Next(s, step), f)
  {
    match step
    case StepResolve(key, decision) => if key in s.table { ResolveHolds(s, key, decision, f); }
    case StepFire(t) =>
      if t < |s.timers| && s.timers[t].armed && s.timers[t].fireAt <= s.now {
        FireHolds(s, t, f);
      }
    case StepDiscard(key) => DiscardHolds(s, {key}, f);
    case StepDiscardRun(runId) => DiscardHolds(s, RunKeys(s, runId), f);
    case _ =>
  }

  ghost predicate NoWaiterOf(s: State, runId: string)
    requires |s.futures| == |s.requests|
  {
    forall f :: 0 <= f < |s.futures| && s.futures[f].Waiting? ==> s.requests[f].key.runId != runId
  }

  /** Discarding a run releases every one of its waiters exactly when all of them are still registered. */
  lemma DiscardReleases(s: State, runId: string)
    requires Inv(s)
    ensures var s' := Next(s, StepDiscardRun(runId));
            && |s'.futures| == |s'.requests|
            && (NoWaiterOf(s', runId) <==> forall f ::
                  0 <= f < |s.futures| && s.futures[f].Waiting? && s.requests[f].key.runId == runId ==> Held(s, f))
  {
    var s' := Next(s, StepDiscardRun(runId));
    var keys := RunKeys(s, runId);
    forall f | 0 <= f < |s.futures| && s.futures[f].Waiting? && s.requests[f].key.runId == runId
      ensures UsesFuture(s, keys, f) <==> Held(s, f)
    {
      if Held(s, f) {
        assert s.requests[f].key in keys;
      }
      if UsesFuture(s, keys, f) {
        var k :| k in keys && k in s.table && s.table[k].future == f;
        assert EntryOk(s, k);
      }
    }
    forall f | 0 <= f < |s.futures| && s.futures[f].Waiting? && UsesFuture(s, keys, f)
      ensures s.requests[f].key.runId == runId
    {
      var k :| k in keys && k in s.table && s.table[k].future == f;
      assert EntryOk(s, k);
    }
  }

  /** No step of the run replaces a request that somebody waits for. */
  ghost predicate NoLiveReuse(s: State, steps: seq<Step>)
    decreases |steps|
  {
    steps != [] ==>
      !(steps[0].StepCreate? && ReplacesWaiting(s, steps[0].key)) && NoLiveReuse(Next(s, steps[0]), steps[1..])
  }

  lemma {:induction false} RunHeld(s: State, steps: seq<Step>)
    requires Inv(s) && AllHeld(s) && NoLiveReuse(s, steps)
    ensures AllHeld(Run(s, steps))
    decreases |steps|
  {
    if steps != [] {
      NextInv(s, steps[0]);
      HeldUnlessReused(s, steps[0]);
      RunHeld(Next(s, steps[0]), steps[1..]);
    }
  }

  /** Unless keys are reused under a waiter, no approval of a run stays pending after its discard. */
  lemma NoWaiterLeft(steps: seq<Step>, runId: string)
    requires NoLiveReuse(INITIAL, steps)
    ensures var s' := Next(Run(INITIAL, steps), StepDiscardRun(runId));
            |s'.futures| == |s'.requests| && NoWaiterOf(s', runId)
  {
    ReachableInv(steps);
    RunHeld(INITIAL, steps);
    DiscardReleases(Run(INITIAL, steps), runId);
  }

  /** An orphaned waiter is answered by nothing: no decision, timer, discard or end of its run. */
  lemma {:induction false} OrphanWaits(s: State, steps: seq<Step>, f: nat)
    requires Inv(s) && f < |s.futures| && s.futures[f].Waiting? && !Held(s, f)
    requires forall i :: 0 <= i < |steps| ==> steps[i] != StepCancelWaiter(f)
    ensures f < |Run(s, steps).futures| && Run(s, steps).futures[f].Waiting?
    decreases |steps|
  {
    if steps != [] {
      OrphanStays(s, steps[0], f);
      NextInv(s, steps[0]);
      OrphanWaits(Next(s, steps[0]), steps[1..], f);
    }
  }

  lemma OrphanStays(s: State, step: Step, f: nat)
    requires Inv(s) && f < |s.futures| && s.futures[f].Waiting? && !Held(s, f) && step != StepCancelWaiter(f)
    ensures var s' := Next(s, step); f < |s'.futures| && s'.futures[f].Waiting? && !Held(s', f)
  {
    NextSettles(s, step);
    forall k | k in s.table ensures s.table[k].future != f {
      assert EntryOk(s, k);
    }
    match step
    case StepFire(t) =>
      if t < |s.timers| && s.timers[t].armed && s.timers[t].fireAt <= s.now {
        FireInv(s, t);
      }
    case _ =>
  }

  /** Two calls of one tool that carry no id share a key, so the second orphans the first. */
  lemma FallbackIdsCollide(g: Gate, a: CallSpec, b: CallSpec)
    requires GateInv(g) && Gated(a) && Gated(b) && a.toolId == b.toolId && a.runId == b.runId
    requires a.callId == b.callId == None
    ensures var g' := GateNext(GateNext(g, StepEnter(a)), StepEnter(b));
            var first := |g.coordinator.futures|;
            && g'.calls[|g.calls|].pc == WaitingFor(first)
            && g'.coordinator.futures[first].Waiting? && !Held(g'.coordinator, first)
            && Held(g'.coordinator, first + 1)
  {
    var g1 := GateNext(g, StepEnter(a));
    assert g1.calls[|g.calls|].pc == WaitingFor(|g.coordinator.futures|);
  }

  // --------------------------------------------------------------- the class

  /** One execution, moving between its awaits; the coordinator is shared with other calls. */
  class ToolExecution {
    const spec: CallSpec
    const coordinator: Coordinator
    var entered: bool
    var pc: Pc
    var approval: Option<nat>
    var phases: seq<Phase>
    var ran: bool
    var root: Option<string>

    constructor (spec: CallSpec, coordinator: Coordinator)
      ensures this.spec == spec && this.coordinator == coordinator && !entered && phases == [] && root == None
    {
      this.spec, this.coordinator := spec, coordinator;
      entered, pc, approval, phases, ran, root := false, Running, None, [], false, None;
    }

    function State(): Call
      reads this
    {
      Call(spec, pc, approval, phases, ran)
    }

    method Fail(code: string)
      modifies `pc, `phases
      ensures pc == Ended(FailedWith(code)) && phases == old(phases) + [Phase.Failed]
    {
      phases := phases + [Phase.Failed];
      pc := Ended(FailedWith(code));
    }

    /** Up to the first await: the tool's body, or the approval. */
    method Begin(now: int)
      requires coordinator.Valid(now) && !entered && phases == []
      modifies this, coordinator
      ensures coordinator.Valid(now) && entered
      ensures var m := Enter(old(coordinator.Model(now)), spec);
              State() == m.call && coordinator.Model(now) == m.coordinator
      ensures pc.Running? <==> spec.registered && spec.enabled && Gives(spec.permissions, spec.toolId, Allow)
      ensures pc.WaitingFor? <==> spec.registered && spec.enabled && !Gives(spec.permissions, spec.toolId, Allow)
    {
      ModesGiven(spec.permissions, spec.toolId);
      entered, approval, ran := true, None, false;
      if !spec.registered {
        Fail("tool_not_found");
        return;
      }
      phases := phases + [Started];
      if !spec.enabled {
        Fail("tool_not_enabled");
        return;
      }
      if spec.Mode() == Allow {
        pc, ran := Running, true;
        return;
      }
      Ask(now);
    }

    method Ask(now: int)
      requires coordinator.Valid(now)
      modifies `pc, `approval, `phases, coordinator
      ensures coordinator.Valid(now)
      ensures pc == WaitingFor(old(|coordinator.futures|)) && approval == Some(old(|coordinator.futures|))
      ensures phases == old(phases) + [WaitingApproval]
      ensures coordinator.Model(now) ==
        Next(old(coordinator.Model(now)), StepCreate(spec.Key(), spec.toolId, spec.Mode(), spec.Seconds(), spec.Action()))
    {
      var request, future := coordinator.Create(spec.Key(), spec.toolId, spec.Mode(), spec.Seconds(), spec.Action(), now);
      phases := phases + [WaitingApproval];
      pc, approval := WaitingFor(future), Some(future);
    }

    /** After the approval: the awaited future has settled. */
    method Continue(now: int)
      requires coordinator.Valid(now)
      requires pc.WaitingFor? && pc.future < |coordinator.futures| && !coordinator.futures[pc.future].Waiting?
      modifies this, coordinator
      ensures coordinator.Valid(now)
      ensures var m := Resume(old(coordinator.Model(now)), old(State()));
              State() == m.call && coordinator.Model(now) == m.coordinator
    {
      var outcome := coordinator.ResumeWait(spec.Key(), pc.future, now);
      match outcome
      case WaitCancelled => pc := Ended(CancelledCall);
      case Resolved(resolution) =>
        if resolution.decision == Approved {
          pc, ran := Running, true;
        } else {
          Fail("tool_approval_rejected");
        }
    }

    /** After the body; a switch of the root is remembered even if its result then cannot be displayed. */
    method Conclude(outcome: Outcome)
      requires pc.Running?
      modifies this
      ensures State() == Complete(old(State()), outcome)
      ensures root == if SwitchesRoot(spec, outcome) then NewRoot(outcome.result) else old(root)
    {
      match outcome
      case ToolError(code) => Fail(code);
      case OtherException => Fail("tool_execution_failed");
      case Returned(result, displayable) =>
        if spec.contract && ContractFailure(result).Some? {
          pc := Ended(ContractFailure(result).value);
        } else if spec.toolId == "tool.fs.switch_root" && !RootReadable(result) {
          pc := Ended(Escaped);
        } else {
          if spec.toolId == "tool.fs.switch_root" && NewRoot(result).Some? {
            root := NewRoot(result);
          }
          pc := Ended(if !displayable then Escaped
                      else if spec.toolId == "tool.request-user-form" && Get(result, "formRequest").VMap?
                      then AwaitingInput(Get(result, "formRequest").m)
                      else Succeeded(result));
        }
        phases := phases + FinalPhase(pc.end);
    }
  }
}
