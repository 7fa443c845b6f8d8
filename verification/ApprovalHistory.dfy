/**
 Approvals told from the steps taken alone: which request each future belongs to, and which step
 with which decision settled it.
 */
module ApprovalHistory {
  import opened Common
  import opened Approval

  function Clock(steps: seq<Step>): nat {
    if steps == [] then 0
    else
      var last := steps[|steps| - 1];
      Clock(steps[..|steps| - 1]) + if last.StepTick? then last.elapsed else 0
  }

  function Creates(steps: seq<Step>): nat {
    if steps == [] then 0
    else Creates(steps[..|steps| - 1]) + if steps[|steps| - 1].StepCreate? then 1 else 0
  }

  /** The position of the last step that made a request under a key. */
  function LastCreate(steps: seq<Step>, key: Key): Option<nat> {
    if steps == [] then None
    else
      var last := steps[|steps| - 1];
      if last.StepCreate? && last.key == key then Some(|steps| - 1) else LastCreate(steps[..|steps| - 1], key)
  }

  /** The request was made at one position, with what that step says, at the time it was taken. */
  ghost predicate MadeAt(steps: seq<Step>, c: nat, request: Request) {
    && c < |steps| && steps[c].StepCreate?
    && request.key == steps[c].key && request.toolId == steps[c].toolId && request.mode == steps[c].mode
    && request.timeoutSeconds == steps[c].seconds && request.timeoutAction == steps[c].action
    && request.requestedAt == Clock(steps[..c])
    && (request.timeoutAt.Some? <==> steps[c].seconds.Some?)
    && (steps[c].seconds.Some? ==> request.timeoutAt == Some(Clock(steps[..c]) + steps[c].seconds.value))
  }

  /** A step at one position settles the request that was last made under its key, which is number `i`. */
  ghost predicate Settled(steps: seq<Step>, p: nat, i: nat, r: Resolution) {
    && p < |steps| && r.resolvedAt == Clock(steps[..p])
    && (match steps[p]
        case StepResolve(key, decision) =>
          && r.key == key && r.source == Manual && r.decision == decision
          && r.status == (match decision case Approved => StatusApproved case Rejected => StatusRejected)
        case StepFire(_) => r.source == Timeout && r.status == StatusTimedOut
        case _ => false)
    && var c := LastCreate(steps[..p], r.key);
    && c.Some? && c.value < p && steps[c.value].StepCreate? && Creates(steps[..c.value]) == i
    && r.toolId == steps[c.value].toolId && r.mode == steps[c.value].mode && r.timeoutAction == steps[c.value].action
    && (steps[p].StepFire? ==>
          && steps[c.value].action.Some?
          && r.decision == (match steps[c.value].action.value case ApproveOnTimeout => Approved case DenyOnTimeout => Rejected))
  }

  /** Requests are those of the creating steps, in order; an entry is the last one under its key. */
  ghost predicate Traced(steps: seq<Step>, s: State) {
    && s.now == Clock(steps) && |s.requests| == Creates(steps) == |s.futures|
    && (forall c: nat :: c < |steps| && steps[c].StepCreate? ==>
          Creates(steps[..c]) < |s.requests| && MadeAt(steps, c, s.requests[Creates(steps[..c])]))
    && (forall key :: key in s.table ==>
          var c := LastCreate(steps, key);
          && c.Some? && c.value < |steps| && steps[c.value].StepCreate? && steps[c.value].key == key
          && s.table[key].future == Creates(steps[..c.value]))
    && (forall i :: 0 <= i < |s.futures| && s.futures[i].Done? ==>
          exists p: nat :: p < |steps| && Settled(steps, p, i, s.futures[i].resolution))
  }

  // ------------------------------------------------------------- one step more

  lemma Earlier(steps: seq<Step>, step: Step)
    ensures forall k :: 0 <= k <= |steps| ==> (steps + [step])[..k] == steps[..k]
    ensures forall k :: 0 <= k < |steps| ==> (steps + [step])[k] == steps[k]
    ensures (steps + [step])[..|steps|] == steps && (steps + [step])[|steps|] == step
  {
  }

  lemma MadeStays(steps: seq<Step>, step: Step, c: nat, request: Request)
    requires MadeAt(steps, c, request)
    ensures MadeAt(steps + [step], c, request)
  {
    Earlier(steps, step);
  }

  lemma SettledStays(steps: seq<Step>, step: Step, p: nat, i: nat, r: Resolution)
    requires Settled(steps, p, i, r)
    ensures Settled(steps + [step], p, i, r)
  {
    Earlier(steps, step);
  }

  lemma {:induction false} CreatesGrow(steps: seq<Step>, c: nat)
    requires c < |steps| && steps[c].StepCreate?
    ensures Creates(steps[..c]) < Creates(steps)
    decreases |steps|
  {
    var init := steps[..|steps| - 1];
    if c < |init| {
      assert init[..c] == steps[..c];
      CreatesGrow(init, c);
    }
  }

  lemma {:induction false} LastCreateBound(steps: seq<Step>, key: Key)
    ensures var c := LastCreate(steps, key);
            c.Some? ==> c.value < |steps| && steps[c.value].StepCreate? && steps[c.value].key == key
  {
    if steps != [] {
      LastCreateBound(steps[..|steps| - 1], key);
    }
  }

  lemma RequestsStep(steps: seq<Step>, s: State, step: Step)
    requires Inv(s) && Traced(steps, s)
    ensures var s', all := Next(s, step), steps + [step];
            && s'.now == Clock(all) && |s'.requests| == Creates(all) == |s'.futures|
            && s'.requests[..|s.requests|] == s.requests
            && (step.StepCreate? ==> |s'.requests| == |s.requests| + 1 && MadeAt(all, |steps|, s'.requests[|s.requests|]))
  {
    Earlier(steps, step);
    NextSettles(s, step);
    NextInv(s, step);
  }

  lemma RequestsTraced(steps: seq<Step>, s: State, step: Step, c: nat)
    requires Inv(s) && Traced(steps, s) && c < |steps| + 1 && (steps + [step])[c].StepCreate?
    ensures var s', all := Next(s, step), steps + [step];
            Creates(all[..c]) < |s'.requests| && MadeAt(all, c, s'.requests[Creates(all[..c])])
  {
    var s', all := Next(s, step), steps + [step];
    RequestsStep(steps, s, step);
    Earlier(steps, step);
    if c < |steps| {
      CreatesGrow(steps, c);
      MadeStays(steps, step, c, s.requests[Creates(steps[..c])]);
      assert s'.requests[Creates(steps[..c])] == s.requests[Creates(steps[..c])];
    }
  }

  /** Entries come from creating steps only; whatever else happens, they stay as they are or go. */
  lemma EntriesStep(s: State, step: Step, key: Key)
    requires Inv(s) && key in Next(s, step).table
    ensures if step.StepCreate? && step.key == key then Next(s, step).table[key].future == |s.futures|
            else key in s.table && Next(s, step).table[key].future == s.table[key].future
  {
    match step
    case StepFire(t) =>
      if t < |s.timers| && s.timers[t].armed && s.timers[t].fireAt <= s.now {
        FireInv(s, t);
      }
    case _ =>
  }

  lemma EntryTraced(steps: seq<Step>, s: State, step: Step, key: Key)
    requires Inv(s) && Traced(steps, s) && key in Next(s, step).table
    ensures var all := steps + [step];
            var c := LastCreate(all, key);
            && c.Some? && c.value < |all| && all[c.value].StepCreate? && all[c.value].key == key
            && Next(s, step).table[key].future == Creates(all[..c.value])
  {
    EntriesStep(s, step, key);
    Earlier(steps, step);
    LastCreateBound(steps, key);
  }

  /** A future that is done since the last step was settled by that step, through the table. */
  ghost predicate DoneBy(s: State, step: Step, i: nat, r: Resolution) {
    && r.key in s.table && s.table[r.key].future == i && RepeatsRequest(s.table[r.key].request, r) && r.resolvedAt == s.now
    && TellsStatus(r.status, r.source, r.decision)
    && (match step
        case StepResolve(key, decision) => r.key == key && r.source == Manual && r.decision == decision
        case StepFire(_) =>
          && r.source == Timeout && r.timeoutAction.Some?
          && (r.timeoutAction.value == ApproveOnTimeout <==> r.decision == Approved)
        case _ => false)
  }

  lemma ResolveSettles(s: State, key: Key, decision: Decision, i: nat)
    requires Inv(s) && i < |s.futures| && !s.futures[i].Done?
    ensures var s' := Next(s, StepResolve(key, decision));
            && |s'.futures| == |s.futures|
            && (s'.futures[i].Done? ==> DoneBy(s, StepResolve(key, decision), i, s'.futures[i].resolution))
  {
    if key in s.table {
      assert EntryOk(s, key);
    }
  }

  lemma FireSettles(s: State, t: nat, i: nat)
    requires Inv(s) && i < |s.futures| && !s.futures[i].Done?
    ensures var s' := Next(s, StepFire(t));
            && |s'.futures| == |s.futures|
            && (s'.futures[i].Done? ==> DoneBy(s, StepFire(t), i, s'.futures[i].resolution))
  {
    if t < |s.timers| && s.timers[t].armed && s.timers[t].fireAt <= s.now {
      FireInv(s, t);
      if s.timers[t].key in s.table {
        assert EntryOk(s, s.timers[t].key);
      }
    }
  }

  lemma NewlyDone(s: State, step: Step, i: nat)
    requires Inv(s) && i < |Next(s, step).futures| && Next(s, step).futures[i].Done?
    ensures i < |s.futures|
    ensures if s.futures[i].Done? then Next(s, step).futures[i] == s.futures[i]
            else DoneBy(s, step, i, Next(s, step).futures[i].resolution)
  {
    NextSettles(s, step);
    if i < |s.futures| && !s.futures[i].Done? {
      match step
      case StepResolve(key, decision) => ResolveSettles(s, key, decision, i);
      case StepFire(t) => FireSettles(s, t, i);
      case _ =>
    }
  }

  lemma DoneIsSettled(steps: seq<Step>, s: State, step: Step, i: nat, r: Resolution)
    requires Inv(s) && Traced(steps, s) && DoneBy(s, step, i, r)
    ensures Settled(steps + [step], |steps|, i, r)
  {
    Earlier(steps, step);
    assert EntryOk(s, r.key);
    var c := LastCreate(steps, r.key).value;
    LastCreateBound(steps, r.key);
    assert MadeAt(steps, c, s.requests[Creates(steps[..c])]);
  }

  lemma FutureTraced(steps: seq<Step>, s: State, step: Step, i: nat)
    requires Inv(s) && Traced(steps, s) && i < |Next(s, step).futures| && Next(s, step).futures[i].Done?
    ensures exists p: nat :: p < |steps| + 1 && Settled(steps + [step], p, i, Next(s, step).futures[i].resolution)
  {
    NewlyDone(s, step, i);
    var r := Next(s, step).futures[i].resolution;
    if s.futures[i].Done? {
      var p: nat :| p < |steps| && Settled(steps, p, i, r);
      SettledStays(steps, step, p, i, r);
    } else {
      DoneIsSettled(steps, s, step, i, r);
    }
  }

  lemma TracedStep(steps: seq<Step>, s: State, step: Step)
    requires Inv(s) && Traced(steps, s)
    ensures Traced(steps + [step], Next(s, step))
  {
    var s', all := Next(s, step), steps + [step];
    RequestsStep(steps, s, step);
    forall c: nat | c < |all| && all[c].StepCreate?
      ensures Creates(all[..c]) < |s'.requests| && MadeAt(all, c, s'.requests[Creates(all[..c])])
    {
      RequestsTraced(steps, s, step, c);
    }
    forall key | key in s'.table
      ensures var c := LastCreate(all, key);
              && c.Some? && c.value < |all| && all[c.value].StepCreate? && all[c.value].key == key
              && s'.table[key].future == Creates(all[..c.value])
    {
      EntryTraced(steps, s, step, key);
    }
    forall i | 0 <= i < |s'.futures| && s'.futures[i].Done?
      ensures exists p: nat :: p < |all| && Settled(all, p, i, s'.futures[i].resolution)
    {
      FutureTraced(steps, s, step, i);
    }
  }

  /**
   Every run, from its steps alone: which request each future was made for, which request is
   registered under each key, and for each resolution the decision or timeout that gave it, the time,
   and the request it answers, which is the last one made under its key.
   */
  lemma {:induction false} RunsAreTraced(steps: seq<Step>)
    ensures Traced(steps, Run(INITIAL, steps))
  {
    if steps != [] {
      var before, step := steps[..|steps| - 1], steps[|steps| - 1];
      assert steps == before + [step];
      RunsAreTraced(before);
      ReachableInv(before);
      TracedStep(before, Run(INITIAL, before), step);
      RunAppend(INITIAL, before, [step]);
      assert [step][1..] == [];
    }
  }

  /** A decision on a registered request that is still awaited is delivered as it was made. */
  lemma DecisionArrives(steps: seq<Step>, key: Key, decision: Decision)
    requires key in Run(INITIAL, steps).table
    ensures var s := Run(INITIAL, steps);
            var s', i := Next(s, StepResolve(key, decision)), s.table[key].future;
            && s'.table == s.table - {key} && i < |s.futures| == |s'.futures|
            && (s.futures[i].Waiting? ==> s'.futures[i].Done? && s'.futures[i].resolution.decision == decision)
            && forall j :: 0 <= j < |s.futures| && j != i ==> s'.futures[j] == s.futures[j]
  {
    ReachableInv(steps);
    assert EntryOk(Run(INITIAL, steps), key);
  }

  /** A due timer delivers what the request now registered under its key wants on a timeout, if anything. */
  lemma TimeoutArrives(steps: seq<Step>, t: nat)
    requires t < |Run(INITIAL, steps).timers|
    requires Run(INITIAL, steps).timers[t].armed && Run(INITIAL, steps).timers[t].fireAt <= Run(INITIAL, steps).now
    ensures var s := Run(INITIAL, steps);
            var s', key := Next(s, StepFire(t)), s.timers[t].key;
            if key in s.table && s.table[key].request.timeoutAction.Some? then
              var i := s.table[key].future;
              && s'.table == s.table - {key} && i < |s.futures| == |s'.futures|
              && (s.futures[i].Waiting? ==>
                    s'.futures[i].Done?
                    && (s'.futures[i].resolution.decision == Approved <==>
                          s.table[key].request.timeoutAction.value == ApproveOnTimeout))
              && forall j :: 0 <= j < |s.futures| && j != i ==> s'.futures[j] == s.futures[j]
            else s'.table == s.table && s'.futures == s.futures
  {
    ReachableInv(steps);
    var s := Run(INITIAL, steps);
    FireInv(s, t);
    if s.timers[t].key in s.table {
      assert EntryOk(s, s.timers[t].key);
    }
  }
}
