/**
 Tool approvals: requests, futures, timers, manual decisions, discards and cancelled waiters
 race over one table keyed by run and tool call.

 Futures and timers belong to the event loop and are named by their index; everything between
 two awaits is one atomic step. Each class method at the end refines the step function of the
 same name, and the lemmas speak about all interleavings of the steps.
 */
module Approval {
  import opened Common

  datatype Mode = Allow | Ask | Delay | Deny

  datatype TimeoutAction = ApproveOnTimeout | DenyOnTimeout

  datatype Decision = Approved | Rejected

  datatype Source = Manual | Timeout

  datatype Status = Pending | StatusApproved | StatusRejected | StatusTimedOut

  datatype Key = Key(runId: string, toolCallId: string)

  datatype Request = Request(
    key: Key,
    toolId: string,
    mode: Mode,
    requestedAt: int,
    timeoutSeconds: Option<int>,
    timeoutAction: Option<TimeoutAction>,
    timeoutAt: Option<int>)

  datatype Resolution = Resolution(
    key: Key,
    toolId: string,
    decision: Decision,
    status: Status,
    source: Source,
    resolvedAt: int,
    mode: Mode,
    timeoutAction: Option<TimeoutAction>)

  datatype Entry = Entry(
    request: Request,
    future: nat,
    status: Status,
    resolution: Option<Resolution>,
    timer: Option<nat>)

  datatype Future = Waiting | Done(resolution: Resolution) | Cancelled

  datatype Timer = Timer(key: Key, fireAt: int, armed: bool)

  datatype ApprovalError = NotFound | Conflict(status: Status)

  /** The table, the loop's futures and timers, the clock, and which request made each future. */
  datatype State = State(
    table: map<Key, Entry>,
    futures: seq<Future>,
    requests: seq<Request>,
    timers: seq<Timer>,
    now: int)

  const INITIAL := State(map[], [], [], [], 0)

  // ------------------------------------------------------------------- steps

  function MakeRequest(
    now: int, key: Key, toolId: string, mode: Mode, seconds: Option<int>, action: Option<TimeoutAction>): Request
  {
    Request(key, toolId, mode, now, seconds, action, if seconds.Some? then Some(now + seconds.value) else None)
  }

  /** Registers a request under its key, replacing an entry that is already there. */
  function CreateRequest(
    s: State, key: Key, toolId: string, mode: Mode, seconds: Option<int>, action: Option<TimeoutAction>): State
  {
    var request := MakeRequest(s.now, key, toolId, mode, seconds, action);
    var timed := seconds.Some? && action.Some?;
    var entry := Entry(request, |s.futures|, Pending, None, if timed then Some(|s.timers|) else None);
    s.(table := s.table[key := entry],
       futures := s.futures + [Waiting],
       requests := s.requests + [request],
       timers := if timed then s.timers + [Timer(key, s.now + seconds.value, true)] else s.timers)
  }

  function Disarm(timers: seq<Timer>, handle: Option<nat>): seq<Timer> {
    if handle.Some? && handle.value < |timers|
    then timers[handle.value := timers[handle.value].(armed := false)]
    else timers
  }

  function ResolutionFor(request: Request, decision: Decision, source: Source, now: int): Resolution {
    var status := match source
      case Timeout => StatusTimedOut
      case Manual => if decision == Approved then StatusApproved else StatusRejected;
    Resolution(request.key, request.toolId, decision, status, source, now, request.mode, request.timeoutAction)
  }

  /** Records the resolution, completes the future unless it is already done, and drops the entry. */
  function Finalize(s: State, entry: Entry, decision: Decision, source: Source): Result<State, ApprovalError> {
    if entry.status != Pending then Err(Conflict(entry.status))
    else
      var r := ResolutionFor(entry.request, decision, source, s.now);
      Ok(s.(
        table := s.table - {entry.request.key},
        futures := if entry.future < |s.futures| && s.futures[entry.future].Waiting?
                   then s.futures[entry.future := Done(r)]
                   else s.futures,
        timers := Disarm(s.timers, entry.timer)))
  }

  function Resolve(s: State, key: Key, decision: Decision): Result<State, ApprovalError> {
    if key !in s.table then Err(NotFound)
    else if s.table[key].status != Pending then Err(Conflict(s.table[key].status))
    else Finalize(s, s.table[key], decision, Manual)
  }

  /** What a timer does: it looks its key up again, whoever is registered there by now. */
  function ResolveFromTimeout(s: State, key: Key): State {
    if key !in s.table || s.table[key].status != Pending then s
    else match s.table[key].request.timeoutAction
      case None => s
      case Some(action) =>
        var decision := if action == ApproveOnTimeout then Approved else Rejected;
        match Finalize(s, s.table[key], decision, Timeout)
        case Ok(s') => s'
        case Err(_) => s
  }

  predicate UsesFuture(s: State, keys: set<Key>, i: nat) {
    exists k | k in keys :: k in s.table && s.table[k].future == i
  }

  predicate UsesTimer(s: State, keys: set<Key>, t: nat) {
    exists k | k in keys :: k in s.table && s.table[k].timer == Some(t)
  }

  /** Removes the entries under some keys, cancelling their timers and unfinished futures. */
  function Discard(s: State, keys: set<Key>): State {
    s.(table := s.table - keys,
       futures := seq(|s.futures|, i requires 0 <= i < |s.futures| =>
         if s.futures[i].Waiting? && UsesFuture(s, keys, i) then Cancelled else s.futures[i]),
       timers := seq(|s.timers|, t requires 0 <= t < |s.timers| =>
         if UsesTimer(s, keys, t) then s.timers[t].(armed := false) else s.timers[t]))
  }

  function RunKeys(s: State, runId: string): set<Key> {
    set k | k in s.table && k.runId == runId
  }

  datatype Step =
    | StepCreate(key: Key, toolId: string, mode: Mode, seconds: Option<int>, action: Option<TimeoutAction>)
    | StepResolve(key: Key, decision: Decision)
    | StepFire(timer: nat)
    | StepDiscard(key: Key)
    | StepDiscardRun(runId: string)
    | StepCancelWaiter(future: nat)
    | StepTick(elapsed: nat)

  /** One atomic step; a step that is not enabled, or that raises, changes nothing. */
  function Next(s: State, step: Step): State {
    match step
    case StepCreate(key, toolId, mode, seconds, action) => CreateRequest(s, key, toolId, mode, seconds, action)
    case StepResolve(key, decision) =>
      (match Resolve(s, key, decision)
       case Ok(s') => s'
       case Err(_) => s)
    case StepFire(t) =>
      if t < |s.timers| && s.timers[t].armed && s.timers[t].fireAt <= s.now
      then ResolveFromTimeout(s.(timers := Disarm(s.timers, Some(t))), s.timers[t].key)
      else s
    case StepDiscard(key) => Discard(s, {key})
    case StepDiscardRun(runId) => Discard(s, RunKeys(s, runId))
    case StepCancelWaiter(f) =>
      if f < |s.futures| && s.futures[f].Waiting? then s.(futures := s.futures[f := Cancelled]) else s
    case StepTick(elapsed) => s.(now := s.now + elapsed)
  }

  function Run(s: State, steps: seq<Step>): State
    decreases |steps|
  {
    if steps == [] then s else Run(Next(s, steps[0]), steps[1..])
  }

  // -------------------------------------------------------------- invariants

  /** The resolution a future received is one its own request allows. */
  predicate Answers(request: Request, r: Resolution) {
    && r == ResolutionFor(request, r.decision, r.source, r.resolvedAt)
    && request.requestedAt <= r.resolvedAt
    && (r.source == Timeout ==>
          && request.timeoutAction.Some?
          && (r.decision == Approved <==> request.timeoutAction.value == ApproveOnTimeout))
  }

  /** The status tells how a request was decided: by its timeout, or which way by a person. */
  predicate TellsStatus(status: Status, source: Source, decision: Decision) {
    && (source == Timeout <==> status == StatusTimedOut)
    && (source == Manual ==> (status == StatusApproved <==> decision == Approved))
    && (source == Manual ==> (status == StatusRejected <==> decision == Rejected))
  }

  /** The resolution repeats its request. */
  predicate RepeatsRequest(request: Request, r: Resolution) {
    r.key == request.key && r.toolId == request.toolId && r.mode == request.mode && r.timeoutAction == request.timeoutAction
  }

  ghost predicate EntryOk(s: State, key: Key)
    requires key in s.table
  {
    var e := s.table[key];
    && e.status == Pending && e.resolution == None && e.request.key == key
    && e.future < |s.futures| == |s.requests| && !s.futures[e.future].Done? && s.requests[e.future] == e.request
    && (e.timer.Some? <==> e.request.timeoutSeconds.Some? && e.request.timeoutAction.Some?)
    && (e.timer.Some? ==>
          && e.timer.value < |s.timers|
          && e.request.timeoutAt.Some?
          && s.timers[e.timer.value] == Timer(key, e.request.timeoutAt.value, true))
  }

  ghost predicate Inv(s: State) {
    && |s.futures| == |s.requests|
    && (forall key :: key in s.table ==> EntryOk(s, key))
    && (forall j, k :: j in s.table && k in s.table && j != k ==> s.table[j].future != s.table[k].future)
    && (forall i :: 0 <= i < |s.requests| ==> s.requests[i].requestedAt <= s.now)
    && (forall i :: 0 <= i < |s.futures| && s.futures[i].Done? ==> Answers(s.requests[i], s.futures[i].resolution))
  }

  lemma CreateInv(s: State, key: Key, toolId: string, mode: Mode, seconds: Option<int>, action: Option<TimeoutAction>)
    requires Inv(s)
    ensures Inv(CreateRequest(s, key, toolId, mode, seconds, action))
  {
    var s' := CreateRequest(s, key, toolId, mode, seconds, action);
    forall k | k in s'.table ensures EntryOk(s', k) {
      if k != key {
        assert EntryOk(s, k);
      }
    }
  }

  lemma FinalizeInv(s: State, key: Key, decision: Decision, source: Source)
    requires Inv(s) && key in s.table
    requires Answers(s.table[key].request, ResolutionFor(s.table[key].request, decision, source, s.now))
    ensures Finalize(s, s.table[key], decision, source).Ok?
    ensures Inv(Finalize(s, s.table[key], decision, source).value)
  {
    assert EntryOk(s, key);
    var s' := Finalize(s, s.table[key], decision, source).value;
    forall k | k in s'.table ensures EntryOk(s', k) {
      assert EntryOk(s, k);
    }
  }

  lemma DiscardInv(s: State, keys: set<Key>)
    requires Inv(s)
    ensures Inv(Discard(s, keys))
  {
    var s' := Discard(s, keys);
    forall k | k in s'.table ensures EntryOk(s', k) {
      assert EntryOk(s, k);
      forall j | j in keys && j in s.table ensures s.table[k].timer.None? || s.table[j].timer != s.table[k].timer {
        assert EntryOk(s, j);
      }
    }
  }

  lemma DisarmInv(s: State, t: nat)
    requires Inv(s) && t < |s.timers|
    requires s.timers[t].key in s.table ==> s.table[s.timers[t].key].timer != Some(t)
    ensures Inv(s.(timers := Disarm(s.timers, Some(t))))
  {
    var s' := s.(timers := Disarm(s.timers, Some(t)));
    forall k | k in s'.table ensures EntryOk(s', k) {
      assert EntryOk(s, k);
    }
  }

  /** The timer may be the entry's own: its entry is gone before the step ends. */
  lemma FireActs(s: State, t: nat, action: TimeoutAction)
    requires Inv(s) && t < |s.timers| && s.timers[t].armed && s.timers[t].fireAt <= s.now
    requires s.timers[t].key in s.table && s.table[s.timers[t].key].request.timeoutAction == Some(action)
    ensures var decision := if action == ApproveOnTimeout then Approved else Rejected;
            var r := Finalize(s, s.table[s.timers[t].key], decision, Timeout);
            && r.Ok? && Next(s, StepFire(t)) == r.value.(timers := Disarm(r.value.timers, Some(t)))
            && Inv(Next(s, StepFire(t)))
  {
    var key := s.timers[t].key;
    assert EntryOk(s, key);
    var entry := s.table[key];
    var decision := if action == ApproveOnTimeout then Approved else Rejected;
    FinalizeInv(s, key, decision, Timeout);
    var f := Finalize(s, entry, decision, Timeout).value;
    assert f.timers[t].key == key;
    DisarmInv(f, t);
    assert Disarm(Disarm(s.timers, Some(t)), entry.timer) == Disarm(f.timers, Some(t));
  }

  lemma FireInv(s: State, t: nat)
    requires Inv(s) && t < |s.timers| && s.timers[t].armed && s.timers[t].fireAt <= s.now
    ensures Inv(Next(s, StepFire(t)))
    ensures var key := s.timers[t].key;
            if key in s.table && s.table[key].request.timeoutAction.Some?
            then
              var decision := if s.table[key].request.timeoutAction.value == ApproveOnTimeout then Approved else Rejected;
              var r := Finalize(s, s.table[key], decision, Timeout);
              r.Ok? && Next(s, StepFire(t)) == r.value.(timers := Disarm(r.value.timers, Some(t)))
            else Next(s, StepFire(t)) == s.(timers := Disarm(s.timers, Some(t)))
  {
    var key := s.timers[t].key;
    if key !in s.table {
      DisarmInv(s, t);
    } else {
      assert EntryOk(s, key);
      match s.table[key].request.timeoutAction
      case None => DisarmInv(s, t);
      case Some(action) => FireActs(s, t, action);
    }
  }

  lemma NextInv(s: State, step: Step)
    requires Inv(s)
    ensures Inv(Next(s, step))
  {
    match step
    case StepCreate(key, toolId, mode, seconds, action) => CreateInv(s, key, toolId, mode, seconds, action);
    case StepResolve(key, decision) =>
      if key in s.table {
        assert EntryOk(s, key);
        FinalizeInv(s, key, decision, Manual);
      }
    case StepFire(t) =>
      if t < |s.timers| && s.timers[t].armed && s.timers[t].fireAt <= s.now {
        FireInv(s, t);
      }
    case StepDiscard(key) => DiscardInv(s, {key});
    case StepDiscardRun(runId) => DiscardInv(s, RunKeys(s, runId));
    case StepCancelWaiter(f) =>
      var s' := Next(s, step);
      forall k | k in s'.table ensures EntryOk(s', k) {
        assert EntryOk(s, k);
      }
    case StepTick(elapsed) =>
      var s' := Next(s, step);
      forall k | k in s'.table ensures EntryOk(s', k) {
        assert EntryOk(s, k);
      }
  }

  lemma {:induction false} RunInv(s: State, steps: seq<Step>)
    requires Inv(s)
    ensures Inv(Run(s, steps))
    decreases |steps|
  {
    if steps != [] {
      NextInv(s, steps[0]);
      RunInv(Next(s, steps[0]), steps[1..]);
    }
  }

  /** Every state reachable from an empty coordinator satisfies the invariant. */
  lemma ReachableInv(steps: seq<Step>)
    ensures Inv(Run(INITIAL, steps))
  {
    RunInv(INITIAL, steps);
  }

  /** The conflict error is unreachable through the table: a decision only fails on a missing key. */
  lemma ResolveOnlyMisses(steps: seq<Step>, key: Key, decision: Decision)
    ensures var s := Run(INITIAL, steps);
            && (Resolve(s, key, decision).Err? <==> key !in s.table)
            && (Resolve(s, key, decision).Err? ==> Resolve(s, key, decision).error == NotFound)
  {
    ReachableInv(steps);
    var s := Run(INITIAL, steps);
    if key in s.table {
      assert EntryOk(s, key);
    }
  }

  // ------------------------------------------- futures complete at most once

  /** Later states extend the futures, never touch a finished one, and never rewind the clock. */
  ghost predicate Settles(s: State, s': State) {
    && |s.futures| <= |s'.futures|
    && s.requests <= s'.requests
    && s.now <= s'.now
    && forall i :: 0 <= i < |s.futures| && !s.futures[i].Waiting? ==> s'.futures[i] == s.futures[i]
  }

  lemma NextSettles(s: State, step: Step)
    requires Inv(s)
    ensures Settles(s, Next(s, step))
  {
    if step.StepFire? {
      if step.timer < |s.timers| && s.timers[step.timer].armed && s.timers[step.timer].fireAt <= s.now {
        FireInv(s, step.timer);
      }
    }
  }

  lemma {:induction false} RunSettles(s: State, steps: seq<Step>)
    requires Inv(s)
    ensures Settles(s, Run(s, steps))
    decreases |steps|
  {
    if steps != [] {
      NextInv(s, steps[0]);
      NextSettles(s, steps[0]);
      RunSettles(Next(s, steps[0]), steps[1..]);
    }
  }

  lemma {:induction false} RunAppend(s: State, a: seq<Step>, b: seq<Step>)
    ensures Run(s, a + b) == Run(Run(s, a), b)
    decreases |a|
  {
    if a == [] {
      assert a + b == b;
    } else {
      assert (a + b)[0] == a[0] && (a + b)[1..] == a[1..] + b;
      RunAppend(Next(s, a[0]), a[1..], b);
    }
  }

  /** A future that is done or cancelled at some point of a run keeps that outcome for good. */
  lemma FutureSettlesOnce(steps: seq<Step>, more: seq<Step>, i: nat)
    requires i < |Run(INITIAL, steps).futures| && !Run(INITIAL, steps).futures[i].Waiting?
    ensures i < |Run(INITIAL, steps + more).futures|
    ensures Run(INITIAL, steps + more).futures[i] == Run(INITIAL, steps).futures[i]
  {
    ReachableInv(steps);
    RunSettles(Run(INITIAL, steps), more);
    RunAppend(INITIAL, steps, more);
  }

  /** Whatever keys are reused, no request without a timeout action is resolved by a timeout. */
  lemma NoTimeoutWithoutAction(steps: seq<Step>, i: nat)
    requires i < |Run(INITIAL, steps).futures| && Run(INITIAL, steps).futures[i].Done?
    ensures i < |Run(INITIAL, steps).requests|
    ensures var s := Run(INITIAL, steps);
            s.requests[i].timeoutAction.None? ==> s.futures[i].resolution.source == Manual
  {
    ReachableInv(steps);
  }

  /** What every delivered resolution says, in every reachable state. */
  lemma ResolutionTells(steps: seq<Step>, i: nat)
    requires i < |Run(INITIAL, steps).futures| && Run(INITIAL, steps).futures[i].Done?
    ensures i < |Run(INITIAL, steps).requests|
    ensures var request, r := Run(INITIAL, steps).requests[i], Run(INITIAL, steps).futures[i].resolution;
            && RepeatsRequest(request, r) && TellsStatus(r.status, r.source, r.decision)
            && request.requestedAt <= r.resolvedAt
            && (r.source == Timeout ==>
                  && (request.timeoutAction == Some(ApproveOnTimeout) <==> r.decision == Approved)
                  && (request.timeoutAction == Some(DenyOnTimeout) <==> r.decision == Rejected))
  {
    ReachableInv(steps);
  }

  // ------------------------------------------------------- timers and reuse

  /** Every armed timer belongs to the entry now registered under its key. */
  ghost predicate TimersLive(s: State) {
    forall t :: 0 <= t < |s.timers| && s.timers[t].armed ==>
      s.timers[t].key in s.table && s.table[s.timers[t].key].timer == Some(t)
  }

  /** The step replaces an entry whose timer is still armed. */
  predicate ReusesTimedKey(s: State, step: Step) {
    step.StepCreate? && step.key in s.table && s.table[step.key].timer.Some?
  }

  lemma CreateLive(s: State, key: Key, toolId: string, mode: Mode, seconds: Option<int>, action: Option<TimeoutAction>)
    requires Inv(s) && TimersLive(s)
    ensures TimersLive(CreateRequest(s, key, toolId, mode, seconds, action))
       <==> !(key in s.table && s.table[key].timer.Some?)
  {
    var s' := CreateRequest(s, key, toolId, mode, seconds, action);
    if key in s.table && s.table[key].timer.Some? {
      assert EntryOk(s, key);
      assert s'.timers[s.table[key].timer.value].armed;
    }
  }

  lemma FireLive(s: State, t: nat)
    requires Inv(s) && TimersLive(s) && t < |s.timers| && s.timers[t].armed && s.timers[t].fireAt <= s.now
    ensures TimersLive(Next(s, StepFire(t)))
  {
    FireInv(s, t);
    assert EntryOk(s, s.timers[t].key);
  }

  lemma ResolveLive(s: State, key: Key, decision: Decision)
    requires Inv(s) && TimersLive(s) && key in s.table
    ensures TimersLive(Next(s, StepResolve(key, decision)))
  {
    assert EntryOk(s, key);
  }

  /** Reusing the key of a timed request is exactly what leaves an armed timer behind. */
  lemma TimersStayLive(s: State, step: Step)
    requires Inv(s) && TimersLive(s)
    ensures TimersLive(Next(s, step)) <==> !ReusesTimedKey(s, step)
  {
    match step
    case StepCreate(key, toolId, mode, seconds, action) => CreateLive(s, key, toolId, mode, seconds, action);
    case StepFire(t) =>
      if t < |s.timers| && s.timers[t].armed && s.timers[t].fireAt <= s.now {
        FireLive(s, t);
      }
    case StepResolve(key, decision) =>
      if key in s.table {
        ResolveLive(s, key, decision);
      }
    case StepDiscard(key) => DiscardLive(s, {key});
    case StepDiscardRun(runId) => DiscardLive(s, RunKeys(s, runId));
    case _ =>
  }

  lemma DiscardLive(s: State, keys: set<Key>)
    requires Inv(s) && TimersLive(s)
    ensures TimersLive(Discard(s, keys))
  {
    var s' := Discard(s, keys);
    forall t | 0 <= t < |s'.timers| && s'.timers[t].armed
      ensures s'.timers[t].key in s'.table && s'.table[s'.timers[t].key].timer == Some(t)
    {
      assert s.timers[t].armed && !UsesTimer(s, keys, t);
    }
  }

  /** No step of the run reuses the key of a timed request that is still registered. */
  ghost predicate NoReuse(s: State, steps: seq<Step>)
    decreases |steps|
  {
    steps != [] ==> !ReusesTimedKey(s, steps[0]) && NoReuse(Next(s, steps[0]), steps[1..])
  }

  /** Timeouts do not come early. */
  ghost predicate OnTime(s: State) {
    forall i :: 0 <= i < |s.futures| <= |s.requests| && s.futures[i].Done? && s.futures[i].resolution.source == Timeout ==>
      s.requests[i].timeoutAt.Some? && s.requests[i].timeoutAt.value <= s.futures[i].resolution.resolvedAt
  }

  lemma NextOnTime(s: State, step: Step)
    requires Inv(s) && TimersLive(s) && OnTime(s)
    ensures OnTime(Next(s, step))
  {
    var s' := Next(s, step);
    if step.StepFire? && step.timer < |s.timers| && s.timers[step.timer].armed && s.timers[step.timer].fireAt <= s.now {
      FireInv(s, step.timer);
      assert EntryOk(s, s.timers[step.timer].key);
    } else if step.StepResolve? && step.key in s.table {
      assert EntryOk(s, step.key);
    }
  }

  lemma {:induction false} RunOnTime(s: State, steps: seq<Step>)
    requires Inv(s) && TimersLive(s) && OnTime(s) && NoReuse(s, steps)
    ensures TimersLive(Run(s, steps)) && OnTime(Run(s, steps))
    decreases |steps|
  {
    if steps != [] {
      NextInv(s, steps[0]);
      TimersStayLive(s, steps[0]);
      NextOnTime(s, steps[0]);
      RunOnTime(Next(s, steps[0]), steps[1..]);
    }
  }

  /** Without key reuse every armed timer is its entry's own and no timeout comes early. */
  lemma TimeoutsAreOnTime(steps: seq<Step>)
    requires NoReuse(INITIAL, steps)
    ensures TimersLive(Run(INITIAL, steps)) && OnTime(Run(INITIAL, steps))
  {
    RunOnTime(INITIAL, steps);
  }

  /** With reuse the first request's timer resolves the second one 50 seconds too soon. */
  lemma ReuseResolvesEarly(key: Key, toolId: string)
    ensures !OnTime(Run(INITIAL, [
      StepCreate(key, toolId, Delay, Some(10), Some(ApproveOnTimeout)),
      StepCreate(key, toolId, Delay, Some(60), Some(ApproveOnTimeout)),
      StepTick(10),
      StepFire(0)]))
  {
    var create := StepCreate(key, toolId, Delay, Some(60), Some(ApproveOnTimeout));
    var s1 := Next(INITIAL, StepCreate(key, toolId, Delay, Some(10), Some(ApproveOnTimeout)));
    var s2 := Next(s1, create);
    var s3 := Next(s2, StepTick(10));
    var s4 := Next(s3, StepFire(0));
    assert s3.timers[0] == Timer(key, 10, true);
    assert s4.futures[1].Done? && s4.requests[1].timeoutAt == Some(60);
    assert Run(s3, [StepFire(0)]) == s4 by { assert [StepFire(0)][1..] == []; }
    assert Run(s2, [StepTick(10), StepFire(0)]) == s4 by { assert [StepTick(10), StepFire(0)][1..] == [StepFire(0)]; }
    assert Run(s1, [create, StepTick(10), StepFire(0)]) == s4 by {
      assert [create, StepTick(10), StepFire(0)][1..] == [StepTick(10), StepFire(0)];
    }
    assert [StepCreate(key, toolId, Delay, Some(10), Some(ApproveOnTimeout)), create, StepTick(10), StepFire(0)][1..]
        == [create, StepTick(10), StepFire(0)];
  }

  // ------------------------------------------------------ discarding a run

  /** Discarding a run leaves none of its requests waiting and touches no other run's entries. */
  lemma DiscardRunClears(steps: seq<Step>, runId: string)
    ensures var s := Run(INITIAL, steps);
            var s' := Next(s, StepDiscardRun(runId));
            && (forall key :: key in s'.table <==> key in s.table && key.runId != runId)
            && (forall key :: key in s'.table ==> s'.table[key] == s.table[key])
            && (forall key :: key in s.table ==>
                  var i := s.table[key].future;
                  && i < |s.futures| == |s'.futures|
                  && (if key.runId == runId then s'.futures[i].Cancelled? else s'.futures[i] == s.futures[i]))
  {
    ReachableInv(steps);
    NextInv(Run(INITIAL, steps), StepDiscardRun(runId));
    var s := Run(INITIAL, steps);
    var keys := RunKeys(s, runId);
    forall key | key in s.table
      ensures s.table[key].future < |s.futures| && !s.futures[s.table[key].future].Done?
      ensures UsesFuture(s, keys, s.table[key].future) <==> key in keys
    {
      assert EntryOk(s, key);
    }
  }

  /**
   A cancelled waiter discards by key. That spares every other waiter exactly when the key is no
   longer registered, or is registered to a future nobody waits for any more, such as its own.
   */
  lemma CancelledWaiterDiscard(s: State, key: Key, own: nat)
    requires Inv(s) && own < |s.futures| && s.futures[own].Cancelled?
    ensures (forall i :: 0 <= i < |s.futures| && s.futures[i].Waiting? ==> Discard(s, {key}).futures[i].Waiting?)
       <==> key !in s.table || !s.futures[s.table[key].future].Waiting?
    ensures key in s.table && s.table[key].future == own ==> !s.futures[s.table[key].future].Waiting?
  {
    if key in s.table {
      assert EntryOk(s, key);
      assert UsesFuture(s, {key}, s.table[key].future);
    }
  }

  lemma DiscardOneMore(s: State, keys: set<Key>, key: Key)
    requires key !in keys
    ensures Discard(Discard(s, keys), {key}) == Discard(s, keys + {key})
  {
    var a, b := Discard(Discard(s, keys), {key}), Discard(s, keys + {key});
    forall i: nat
      ensures UsesFuture(s, keys + {key}, i) <==> UsesFuture(s, keys, i) || UsesFuture(Discard(s, keys), {key}, i)
      ensures UsesTimer(s, keys + {key}, i) <==> UsesTimer(s, keys, i) || UsesTimer(Discard(s, keys), {key}, i)
    {
      if key in s.table {
        var e := s.table[key];
        assert Discard(s, keys).table[key] == e;
        assert e.future == i ==> UsesFuture(s, keys + {key}, i) && UsesFuture(Discard(s, keys), {key}, i);
        assert e.timer == Some(i) ==> UsesTimer(s, keys + {key}, i) && UsesTimer(Discard(s, keys), {key}, i);
      }
    }
    assert a.table == b.table;
    assert a.futures == b.futures;
    assert a.timers == b.timers;
  }

  lemma Collected(discarded: seq<Request>, request: Request)
    ensures request in discarded + [request]
    ensures forall r :: r in discarded + [request] <==> r in discarded || r == request
  {
    assert (discarded + [request])[|discarded|] == request;
  }

  lemma DiscardNothing(s: State)
    ensures Discard(s, {}) == s
  {
    assert Discard(s, {}).table == s.table;
    assert Discard(s, {}).futures == s.futures;
    assert Discard(s, {}).timers == s.timers;
  }

  // --------------------------------------------------------------- the class

  datatype WaitOutcome = Resolved(resolution: Resolution) | WaitCancelled

  /** The coordinator, with the part of the event loop it owns and the time given by the caller. */
  class Coordinator {
    var pendingByKey: map<Key, Entry>
    var futures: seq<Future>
    var timers: seq<Timer>
    ghost var requests: seq<Request>

    ghost function Model(now: int): State
      reads this
    {
      State(pendingByKey, futures, requests, timers, now)
    }

    ghost predicate Valid(now: int)
      reads this
    {
      Inv(Model(now))
    }

    constructor ()
      ensures Model(0) == INITIAL && Valid(0)
    {
      pendingByKey, futures, timers, requests := map[], [], [], [];
    }

    method Create(key: Key, toolId: string, mode: Mode, seconds: Option<int>, action: Option<TimeoutAction>, now: int)
      returns (request: Request, future: nat)
      requires Valid(now)
      modifies this
      ensures Model(now) == CreateRequest(old(Model(now)), key, toolId, mode, seconds, action) && Valid(now)
      ensures key in pendingByKey && pendingByKey[key].request == request && pendingByKey[key].future == future
      ensures future == |old(futures)| && futures[future].Waiting?
    {
      CreateInv(Model(now), key, toolId, mode, seconds, action);
      var timeoutAt := None;
      if seconds.Some? {
        timeoutAt := Some(now + seconds.value);
      }
      request := Request(key, toolId, mode, now, seconds, action, timeoutAt);
      future := |futures|;
      futures := futures + [Waiting];
      requests := requests + [request];
      var handle := None;
      if seconds.Some? && action.Some? {
        handle := Some(|timers|);
        timers := timers + [Timer(key, now + seconds.value, true)];
      }
      pendingByKey := pendingByKey[key := Entry(request, future, Pending, None, handle)];
    }

    method FinalizePending(pending: Entry, decision: Decision, source: Source, now: int)
      returns (r: Result<Resolution, ApprovalError>)
      requires pending.future < |futures| && (pending.timer.Some? ==> pending.timer.value < |timers|)
      modifies this
      ensures r == if pending.status != Pending then Err(Conflict(pending.status))
                   else Ok(ResolutionFor(pending.request, decision, source, now))
      ensures r.Ok? ==>
        && RepeatsRequest(pending.request, r.value) && TellsStatus(r.value.status, source, decision)
        && r.value.decision == decision && r.value.source == source && r.value.resolvedAt == now
      ensures var spec := Finalize(old(Model(now)), pending, decision, source);
              Model(now) == if spec.Ok? then spec.value else old(Model(now))
    {
      if pending.status != Pending {
        return Err(Conflict(pending.status));
      }
      var status := StatusTimedOut;
      if source == Manual {
        status := if decision == Approved then StatusApproved else StatusRejected;
      }
      var resolution := Resolution(pending.request.key, pending.request.toolId, decision, status, source, now,
                                   pending.request.mode, pending.request.timeoutAction);
      if pending.timer.Some? {
        timers := timers[pending.timer.value := timers[pending.timer.value].(armed := false)];
      }
      if futures[pending.future].Waiting? {
        futures := futures[pending.future := Done(resolution)];
      }
      pendingByKey := pendingByKey - {pending.request.key};
      r := Ok(resolution);
    }

    method ResolveRequest(key: Key, decision: Decision, now: int) returns (r: Result<Resolution, ApprovalError>)
      requires Valid(now)
      modifies this
      ensures Valid(now) && Model(now) == Next(old(Model(now)), StepResolve(key, decision))
      ensures r == if key in old(pendingByKey)
                   then Ok(ResolutionFor(old(pendingByKey)[key].request, decision, Manual, now))
                   else Err(NotFound)
      ensures r.Ok? ==>
        && key in old(pendingByKey) && RepeatsRequest(old(pendingByKey)[key].request, r.value)
        && TellsStatus(r.value.status, Manual, decision)
        && r.value.decision == decision && r.value.source == Manual && r.value.resolvedAt == now
      ensures key in old(pendingByKey) ==>
        var i := old(pendingByKey)[key].future;
        i < |futures| && (futures[i] == Done(r.value) || futures[i].Cancelled?)
    {
      NextInv(Model(now), StepResolve(key, decision));
      if key !in pendingByKey {
        return Err(NotFound);
      }
      assert EntryOk(Model(now), key);
      var pending := pendingByKey[key];
      if pending.status != Pending {
        return Err(Conflict(pending.status));
      }
      r := FinalizePending(pending, decision, Manual, now);
    }

    /** The timer callback, run by the loop once the armed timer is due. */
    method FireTimer(t: nat, now: int)
      requires Valid(now) && t < |timers| && timers[t].armed && timers[t].fireAt <= now
      modifies this
      ensures Valid(now) && Model(now) == Next(old(Model(now)), StepFire(t))
    {
      NextInv(Model(now), StepFire(t));
      var key := timers[t].key;
      if key in pendingByKey {
        assert EntryOk(Model(now), key);
      }
      timers := timers[t := timers[t].(armed := false)];
      if key in pendingByKey && pendingByKey[key].status == Pending && pendingByKey[key].request.timeoutAction.Some? {
        var action := pendingByKey[key].request.timeoutAction.value;
        var decision := if action == ApproveOnTimeout then Approved else Rejected;
        var finalized := FinalizePending(pendingByKey[key], decision, Timeout, now);
      }
    }

    method DiscardRequest(key: Key, now: int) returns (found: bool)
      requires Valid(now)
      modifies this
      ensures Valid(now) && Model(now) == Next(old(Model(now)), StepDiscard(key))
      ensures found == (key in old(pendingByKey))
    {
      NextInv(Model(now), StepDiscard(key));
      ghost var s := Model(now);
      found := key in pendingByKey;
      if found {
        assert EntryOk(s, key);
        var pending := pendingByKey[key];
        pendingByKey := pendingByKey - {key};
        if pending.timer.Some? {
          timers := timers[pending.timer.value := timers[pending.timer.value].(armed := false)];
        }
        if futures[pending.future].Waiting? {
          futures := futures[pending.future := Cancelled];
        }
        assert forall i: nat :: UsesFuture(s, {key}, i) <==> i == pending.future;
        assert forall t: nat :: UsesTimer(s, {key}, t) <==> pending.timer == Some(t);
      }
      assert Model(now).futures == Discard(s, {key}).futures;
      assert Model(now).timers == Discard(s, {key}).timers;
    }

    /** One round of `DiscardRun`: `gone` are the keys already discarded since state `s`. */
    method DiscardNext(key: Key, now: int, ghost s: State, ghost gone: set<Key>) returns (request: Request)
      requires Valid(now) && Model(now) == Discard(s, gone)
      requires key in s.table && key !in gone
      modifies this
      ensures Valid(now) && Model(now) == Discard(s, gone + {key})
      ensures request == s.table[key].request && request.key == key
    {
      assert pendingByKey == s.table - gone;
      assert EntryOk(Model(now), key);
      request := pendingByKey[key].request;
      DiscardOneMore(s, gone, key);
      var found := DiscardRequest(key, now);
    }

    method DiscardRun(runId: string, now: int) returns (discarded: seq<Request>)
      requires Valid(now)
      modifies this
      ensures Valid(now) && Model(now) == Next(old(Model(now)), StepDiscardRun(runId))
      ensures forall key :: key in RunKeys(old(Model(now)), runId) ==> old(pendingByKey)[key].request in discarded
      ensures forall r :: r in discarded ==> r.key in RunKeys(old(Model(now)), runId)
    {
      ghost var s := Model(now);
      ghost var all := RunKeys(s, runId);
      ghost var gone: set<Key> := {};
      var keys := set key | key in pendingByKey && key.runId == runId;
      discarded := [];
      assert keys == all;
      DiscardNothing(s);
      while keys != {}
        invariant gone !! keys && gone + keys == all
        invariant Valid(now) && Model(now) == Discard(s, gone)
        invariant forall key :: key in gone ==> s.table[key].request in discarded
        invariant forall r :: r in discarded ==> r.key in gone
        decreases keys
      {
        var key :| key in keys;
        var request := DiscardNext(key, now, s, gone);
        Collected(discarded, request);
        discarded := discarded + [request];
        gone, keys := gone + {key}, keys - {key};
      }
      assert gone == all;
    }

    /** The first half of a wait: it needs a registered request and yields the future to await. */
    method BeginWait(key: Key, now: int) returns (r: Result<nat, ApprovalError>)
      requires Valid(now)
      ensures r == if key in pendingByKey then Ok(pendingByKey[key].future) else Err(NotFound)
    {
      if key !in pendingByKey {
        return Err(NotFound);
      }
      assert EntryOk(Model(now), key);
      var pending := pendingByKey[key];
      if pending.status != Pending {
        return Err(Conflict(pending.status));
      }
      r := Ok(pending.future);
    }

    /** The second half, once the awaited future has settled; a cancelled wait discards by key. */
    method ResumeWait(key: Key, future: nat, now: int) returns (outcome: WaitOutcome)
      requires Valid(now) && future < |futures| && !futures[future].Waiting?
      modifies this
      ensures Valid(now)
      ensures old(futures)[future].Done? ==>
        outcome == Resolved(old(futures)[future].resolution) && Model(now) == old(Model(now))
      ensures old(futures)[future].Cancelled? ==>
        outcome == WaitCancelled && Model(now) == Next(old(Model(now)), StepDiscard(key))
    {
      match futures[future]
      case Done(resolution) =>
        outcome := Resolved(resolution);
      case Cancelled =>
        var found := DiscardRequest(key, now);
        outcome := WaitCancelled;
    }
  }
}
