/**
 The desktop's single hosted backend service: callers share one creation in flight. A step is what
 runs between two awaits; creations and the service each makes are named by their number.
 */
module SingleFlight {
  import opened Common

  datatype Creation = InFlight | Succeeded | Failed

  /** Where a caller stands: the one that started a creation has to clean up after it. */
  datatype Caller = Starter(creation: nat) | Joiner(creation: nat) | Returned(service: nat) | Threw(creation: nat)

  datatype State = State(service: Option<nat>, promise: Option<nat>, creations: seq<Creation>, callers: seq<Caller>)

  const INITIAL := State(None, None, [], [])

  datatype Step = Call | Settle(creation: nat, success: bool) | Resume(caller: nat)

  function Next(s: State, step: Step): State {
    match step
    case Call =>
      if s.service.Some? then s.(callers := s.callers + [Returned(s.service.value)])
      else if s.promise.Some? then s.(callers := s.callers + [Joiner(s.promise.value)])
      else
        var c := |s.creations|;
        s.(promise := Some(c), creations := s.creations + [InFlight], callers := s.callers + [Starter(c)])
    case Settle(c, success) =>
      if c >= |s.creations| || !s.creations[c].InFlight? then s
      else if success then s.(service := Some(c), creations := s.creations[c := Succeeded])
      else s.(creations := s.creations[c := Failed])
    case Resume(i) =>
      if i >= |s.callers| || !Ready(s, s.callers[i]) then s
      else
        var c := s.callers[i].creation;
        var after := if s.creations[c].Succeeded? then Returned(c) else Threw(c);
        s.(callers := s.callers[i := after], promise := if s.callers[i].Starter? then None else s.promise)
  }

  /** The creation the caller awaits has settled. */
  predicate Ready(s: State, caller: Caller) {
    (caller.Starter? || caller.Joiner?) && caller.creation < |s.creations| && !s.creations[caller.creation].InFlight?
  }

  function Run(s: State, steps: seq<Step>): State
    decreases |steps|
  {
    if steps == [] then s else Run(Next(s, steps[0]), steps[1..])
  }

  // -------------------------------------------------------------- invariant

  /** The promise belongs to the latest creation and lasts until its starter has cleaned up. */
  ghost predicate PromiseOk(s: State) {
    && (s.promise.Some? ==> s.promise.value == |s.creations| - 1)
    && (s.promise.Some? <==> exists i :: 0 <= i < |s.callers| && s.callers[i].Starter?)
    && (forall i :: 0 <= i < |s.callers| && s.callers[i].Starter? ==> s.promise == Some(s.callers[i].creation))
    && (forall i, j :: 0 <= i < j < |s.callers| && s.callers[i].Starter? ==> !s.callers[j].Starter?)
  }

  ghost predicate CreationsOk(s: State) {
    && (forall c :: 0 <= c < |s.creations| && s.creations[c].InFlight? ==> s.promise == Some(c) && s.service.None?)
    && (forall c :: 0 <= c < |s.creations| && s.creations[c].Succeeded? <==> s.service == Some(c))
    && (s.service.Some? ==> s.service.value == |s.creations| - 1)
  }

  ghost predicate CallerOk(s: State, caller: Caller) {
    match caller
    case Starter(c) => c < |s.creations|
    case Joiner(c) => c < |s.creations|
    case Returned(service) => s.service == Some(service)
    case Threw(c) => c < |s.creations| && s.creations[c].Failed?
  }

  ghost predicate Inv(s: State) {
    PromiseOk(s) && CreationsOk(s) && forall i :: 0 <= i < |s.callers| ==> CallerOk(s, s.callers[i])
  }

  lemma NextKeeps(s: State, step: Step)
    requires Inv(s)
    ensures Inv(Next(s, step))
  {
    var s' := Next(s, step);
    match step
    case Call =>
      forall i | 0 <= i < |s'.callers| ensures CallerOk(s', s'.callers[i]) {
        assert i < |s.callers| ==> CallerOk(s, s.callers[i]);
      }
      if s.promise.Some? {
        var i :| 0 <= i < |s.callers| && s.callers[i].Starter?;
        assert s'.callers[i].Starter?;
      } else if s.service.None? {
        assert s'.callers[|s.callers|].Starter?;
      }
    case Settle(c, success) =>
      forall i | 0 <= i < |s'.callers| ensures CallerOk(s', s'.callers[i]) {
        assert CallerOk(s, s.callers[i]);
      }
    case Resume(i) =>
      ResumeKeeps(s, i);
  }

  lemma ResumeKeeps(s: State, i: nat)
    requires Inv(s)
    ensures Inv(Next(s, Resume(i)))
  {
    var s' := Next(s, Resume(i));
    if i < |s.callers| && Ready(s, s.callers[i]) {
      forall j | 0 <= j < |s'.callers| ensures CallerOk(s', s'.callers[j]) {
        assert CallerOk(s, s.callers[j]);
      }
      if s.callers[i].Joiner? && s.promise.Some? {
        var j :| 0 <= j < |s.callers| && s.callers[j].Starter?;
        assert s'.callers[j].Starter?;
      }
    }
  }

  lemma {:induction false} RunKeeps(s: State, steps: seq<Step>)
    requires Inv(s)
    ensures Inv(Run(s, steps))
    decreases |steps|
  {
    if steps != [] {
      NextKeeps(s, steps[0]);
      RunKeeps(Next(s, steps[0]), steps[1..]);
    }
  }

  // ------------------------------------------------------------ main theorems

  /**
   In every interleaving: at most one creation is in flight, at most one ever succeeds, and every
   caller that returned has the one service there is.
   */
  lemma SingleService(steps: seq<Step>, c: nat, d: nat, i: nat, j: nat)
    ensures var s := Run(INITIAL, steps);
            && (c < |s.creations| && d < |s.creations| && s.creations[c].InFlight? && s.creations[d].InFlight? ==> c == d)
            && (c < |s.creations| && d < |s.creations| && s.creations[c].Succeeded? && s.creations[d].Succeeded? ==> c == d)
            && (i < |s.callers| && j < |s.callers| && s.callers[i].Returned? && s.callers[j].Returned? ==>
                  s.callers[i] == s.callers[j] && s.service == Some(s.callers[i].service))
  {
    RunKeeps(INITIAL, steps);
    var s := Run(INITIAL, steps);
    assert i < |s.callers| ==> CallerOk(s, s.callers[i]);
    assert j < |s.callers| ==> CallerOk(s, s.callers[j]);
  }

  /** A new call starts a creation exactly when there is no service and nothing left to clean up. */
  lemma WhenACallCreates(steps: seq<Step>)
    ensures var s := Run(INITIAL, steps);
            |Next(s, Call).creations| > |s.creations| <==>
              && (forall c :: 0 <= c < |s.creations| ==> s.creations[c].Failed?)
              && (forall i :: 0 <= i < |s.callers| ==> !s.callers[i].Starter?)
  {
    RunKeeps(INITIAL, steps);
    var s := Run(INITIAL, steps);
    if s.service.Some? {
      assert s.creations[s.service.value].Succeeded?;
    }
  }

  /** Once the creation in flight has failed and its starter has resumed, the next call tries again. */
  lemma RetryAfterFailure(steps: seq<Step>, i: nat)
    requires var s := Run(INITIAL, steps);
             i < |s.callers| && s.callers[i].Starter? && s.callers[i].creation < |s.creations|
             && s.creations[s.callers[i].creation].Failed?
    ensures var s' := Next(Run(INITIAL, steps), Resume(i));
            && s'.callers[i].Threw? && s'.promise.None? && s'.service.None?
            && Next(s', Call).callers[|s'.callers|] == Starter(|s'.creations|)
            && Next(s', Call).creations[|s'.creations|].InFlight?
  {
    RunKeeps(INITIAL, steps);
  }

  /** Nobody waits in vain: whoever waits can resume, or waits for the creation in flight. */
  lemma NobodyForgotten(steps: seq<Step>, i: nat)
    requires i < |Run(INITIAL, steps).callers|
    requires var caller := Run(INITIAL, steps).callers[i]; caller.Starter? || caller.Joiner?
    ensures var s := Run(INITIAL, steps);
            var c := s.callers[i].creation;
            && c < |s.creations|
            && (!Ready(s, s.callers[i]) <==> s.creations[c].InFlight? && s.promise == Some(c) && s.service.None?)
  {
    RunKeeps(INITIAL, steps);
    var s := Run(INITIAL, steps);
    assert CallerOk(s, s.callers[i]);
  }

  // --------------------------------------------------------------- the class

  /** The module's two variables, with the event loop's view of promises and callers. */
  class BackendHost {
    var hostedBackendService: Option<nat>
    var hostedBackendServicePromise: Option<nat>
    var creations: seq<Creation>
    var callers: seq<Caller>

    constructor ()
      ensures Model() == INITIAL
    {
      hostedBackendService, hostedBackendServicePromise, creations, callers := None, None, [], [];
    }

    function Model(): State
      reads this
    {
      State(hostedBackendService, hostedBackendServicePromise, creations, callers)
    }

    /** A caller up to its first await. */
    method EnsureHostedBackendService()
      requires Inv(Model())
      modifies this
      ensures Model() == Next(old(Model()), Call) && Inv(Model())
    {
      NextKeeps(Model(), Call);
      if hostedBackendService.Some? {
        callers := callers + [Returned(hostedBackendService.value)];
        return;
      }
      if hostedBackendServicePromise.Some? {
        callers := callers + [Joiner(hostedBackendServicePromise.value)];
        return;
      }
      hostedBackendServicePromise := Some(|creations|);
      callers := callers + [Starter(|creations|)];
      creations := creations + [InFlight];
    }

    /** The creation's own code comes to its end. */
    method SettleCreation(c: nat, success: bool)
      requires Inv(Model()) && c < |creations| && creations[c].InFlight?
      modifies this
      ensures Model() == Next(old(Model()), Settle(c, success)) && Inv(Model())
    {
      NextKeeps(Model(), Settle(c, success));
      if success {
        hostedBackendService := Some(c);
      }
      creations := creations[c := if success then Succeeded else Failed];
    }

    /** A waiting caller goes on; the starter's `finally` clears the promise. */
    method ResumeCaller(i: nat)
      requires Inv(Model()) && i < |callers| && Ready(Model(), callers[i])
      modifies this
      ensures Model() == Next(old(Model()), Resume(i)) && Inv(Model())
    {
      NextKeeps(Model(), Resume(i));
      var c, starter := callers[i].creation, callers[i].Starter?;
      callers := callers[i := if creations[c].Succeeded? then Returned(c) else Threw(c)];
      if starter {
        hostedBackendServicePromise := None;
      }
    }
  }
}
