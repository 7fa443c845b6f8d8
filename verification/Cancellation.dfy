/**
 Cancel requests while a run is streamed. The checks of the orchestrator ask the client and then the
 stored run, so what a check finds depends on the cancel calls that came between the events before it.
 */
module Cancellation {
  import opened Common
  import opened ExecutionEvents
  import opened RunEvents
  import opened Orchestrator
  import opened SessionStore
  import opened Bridge
  import opened EndToEnd

  predicate Asked(inputs: seq<(Input, int)>) {
    exists k :: 0 <= k < |inputs| && inputs[k].0.CancelCall?
  }

  predicate NoneTerminal(events: seq<RunEvent>) {
    forall i :: 0 <= i < |events| ==> !events[i].eventType.IsTerminal()
  }

  // ------------------------------------------------------- the flag of the run

  lemma AdvanceRequested(hooks: Hooks, p: Progress, input: Input, now: int)
    requires !p.run.status.IsTerminal() && !p.run.status.Pending?
    requires input.FromOrchestrator? ==> !input.event.eventType.IsTerminal()
    ensures var run := Advance(hooks, p, input, now).run;
            && !run.status.IsTerminal() && !run.status.Pending?
            && (run.cancelRequested <==> p.run.cancelRequested || input.CancelCall?)
  {
  }

  /** Until a terminal event, the flag is set exactly by the cancel calls. */
  lemma {:induction false} LoopRequested(hooks: Hooks, p: Progress, inputs: seq<(Input, int)>)
    requires !p.run.status.IsTerminal() && !p.run.status.Pending? && NoneTerminal(Events(inputs))
    ensures Loop(hooks, p, inputs).run.cancelRequested <==> p.run.cancelRequested || Asked(inputs)
    decreases |inputs|
  {
    if inputs != [] {
      assert inputs[0].0.FromOrchestrator? ==> Events(inputs)[0] == inputs[0].0.event;
      assert Asked(inputs) <==> inputs[0].0.CancelCall? || Asked(inputs[1..]) by {
        AskedCons(inputs);
      }
      EventsCons(inputs);
      NoneTerminalAppend(Events([inputs[0]]), Events(inputs[1..]));
      AdvanceRequested(hooks, p, inputs[0].0, inputs[0].1);
      LoopRequested(hooks, Advance(hooks, p, inputs[0].0, inputs[0].1), inputs[1..]);
    }
  }

  lemma AskedCons(inputs: seq<(Input, int)>)
    requires inputs != []
    ensures Asked(inputs) <==> inputs[0].0.CancelCall? || Asked(inputs[1..])
  {
    if Asked(inputs[1..]) {
      var k :| 0 <= k < |inputs[1..]| && inputs[1..][k].0.CancelCall?;
      assert inputs[k + 1].0.CancelCall?;
    }
    if Asked(inputs) {
      var k :| 0 <= k < |inputs| && inputs[k].0.CancelCall?;
      assert k > 0 ==> inputs[1..][k - 1].0.CancelCall?;
    }
  }

  lemma {:induction false} EventsSplit(inputs: seq<(Input, int)>, k: nat)
    requires k <= |inputs|
    ensures Events(inputs) == Events(inputs[..k]) + Events(inputs[k..])
  {
    if k == 0 {
      assert inputs[..0] == [] && inputs[0..] == inputs;
    } else {
      EventsSplit(inputs[1..], k - 1);
      assert inputs[..k][1..] == inputs[1..][..k - 1] && inputs[k..] == inputs[1..][k - 1..];
    }
  }

  lemma NoneTerminalAppend(a: seq<RunEvent>, b: seq<RunEvent>)
    requires NoneTerminal(a + b)
    ensures NoneTerminal(a) && NoneTerminal(b)
  {
    assert forall i :: 0 <= i < |a| ==> (a + b)[i] == a[i];
    assert forall i :: 0 <= i < |b| ==> (a + b)[|a| + i] == b[i];
  }

  lemma NoneTerminalBefore(events: seq<RunEvent>, m: nat)
    requires m < |events| && Terminals(events[..|events| - 1]) == 0
    ensures NoneTerminal(events[..m])
  {
    var init := events[..|events| - 1];
    NoTerminals(init);
    forall i | 0 <= i < m ensures !events[..m][i].eventType.IsTerminal() {
      assert events[..m][i] == init[i];
    }
  }

  // ----------------------------------------------------------------- the checks

  /** The execution gets to its end unless a check finds the client gone or a cancellation requested. */
  predicate Answered(x: Execution, runId: string) {
    x.preparation.Ready? && x.outcome.AgentOutput? && Rejected !in Publications(x.ctx, x.Trace(runId))
  }

  /** One check for each public event, and three at the end. */
  function CheckCount(x: Execution, runId: string): nat {
    PublicCount(Publications(x.ctx, x.Trace(runId))) + 3
  }

  /** The number of events yielded before the i-th check: the opening ones and those checked before. */
  function YieldedBefore(x: Execution, runId: string, i: nat): nat {
    2 + if i < CheckCount(x, runId) - 3 then i else CheckCount(x, runId) - 3
  }

  predicate Reached(x: Execution, runId: string, i: nat) {
    i < CheckCount(x, runId) && forall j: nat :: j < i ==> !x.disconnected(j)
  }

  /**
   The i-th check is made when `handled(i)` inputs have been handled. It is answered by the client,
   or else by the flag of the stored run.
   */
  predicate ChecksRead(
    hooks: Hooks, run: RunState, x: Execution, inputs: seq<(Input, int)>, start: int,
    client: nat -> bool, handled: nat -> nat)
  {
    forall i: nat :: i < CheckCount(x, run.runId) && Reached(x, run.runId, i) ==>
        && handled(i) <= |inputs| && |Events(inputs[..handled(i)])| == YieldedBefore(x, run.runId, i)
        && (x.disconnected(i) <==>
              client(i) || Loop(hooks, Begin(run, start), inputs[..handled(i)]).run.cancelRequested)
  }

  /** Before the i-th check the client went away or a cancellation was requested. */
  predicate Interrupted(run: RunState, inputs: seq<(Input, int)>, client: nat -> bool, handled: nat -> nat, i: nat) {
    client(i) || run.cancelRequested || (handled(i) <= |inputs| && Asked(inputs[..handled(i)]))
  }

  /** What has been yielded before a check that is reached. */
  lemma {:induction false} DriveYields(
    sequence: nat, publications: seq<Publication>, disconnected: nat -> bool, checks: nat, i: nat)
    requires Rejected !in publications && i <= PublicCount(publications)
    requires forall j: nat :: checks <= j < checks + i ==> !disconnected(j)
    ensures |DriveFrom(sequence, publications, disconnected, checks).events| >= i
    decreases |publications|
  {
    if publications != [] && publications[0].Hidden? {
      DriveYields(sequence, publications[1..], disconnected, checks, i);
    } else if publications != [] && i > 0 {
      DriveYields(sequence + 1, publications[1..], disconnected, checks + 1, i - 1);
    }
  }

  /** The stream is longer than what was yielded before a check, unless it escapes at its last check. */
  lemma YieldedBound(x: Execution, runId: string, i: nat)
    requires Answered(x, runId) && Reached(x, runId, i)
    ensures YieldedBefore(x, runId, i) < |x.Streamed(runId).events| + if x.Streamed(runId).escaped then 1 else 0
  {
    var publications := Publications(x.ctx, x.Trace(runId));
    DriveYields(2, publications, x.disconnected, 0, YieldedBefore(x, runId, i) - 2);
    EndingShape(x.ctx, x.Driven(runId), x.outcome, x.unsupported, x.disconnected);
  }

  /** Every check comes before the terminal event. */
  lemma YieldedAreOpen(x: Execution, runId: string, i: nat)
    requires x.Plain() && Answered(x, runId) && Reached(x, runId, i)
    ensures var events := x.Streamed(runId).events;
            YieldedBefore(x, runId, i) <= |events| && NoneTerminal(events[..YieldedBefore(x, runId, i)])
  {
    var events, m := x.Streamed(runId).events, YieldedBefore(x, runId, i);
    YieldedBound(x, runId, i);
    StreamShape(x, runId);
    if x.Streamed(runId).escaped {
      NoTerminals(events);
    } else {
      NoneTerminalBefore(events, m);
    }
  }

  lemma CheckAnswer(
    hooks: Hooks, run: RunState, x: Execution, inputs: seq<(Input, int)>, start: int,
    client: nat -> bool, handled: nat -> nat, i: nat)
    requires Startable(run) && x.Plain() && Answered(x, run.runId) && Events(inputs) == x.Streamed(run.runId).events
    requires ChecksRead(hooks, run, x, inputs, start, client, handled) && Reached(x, run.runId, i)
    ensures x.disconnected(i) <==> Interrupted(run, inputs, client, handled, i)
  {
    YieldedAreOpen(x, run.runId, i);
    EventsSplit(inputs, handled(i));
    assert Events(inputs[..handled(i)]) == Events(inputs)[..YieldedBefore(x, run.runId, i)];
    LoopRequested(hooks, Begin(run, start), inputs[..handled(i)]);
  }

  /** Two tests that agree as long as the first has failed so far have failed so far together. */
  lemma {:induction false} FailTogether(d: nat -> bool, q: nat -> bool, m: nat)
    requires forall i: nat :: i < m && (forall j: nat :: j < i ==> !d(j)) ==> (d(i) <==> q(i))
    ensures (forall i: nat :: i < m ==> !d(i)) <==> (forall i: nat :: i < m ==> !q(i))
  {
    if m > 0 {
      FailTogether(d, q, m - 1);
      assert d(m - 1) || !d(m - 1);
    }
  }

  lemma ChecksAgree(
    hooks: Hooks, run: RunState, x: Execution, inputs: seq<(Input, int)>, start: int,
    client: nat -> bool, handled: nat -> nat, m: nat)
    requires Startable(run) && x.Plain() && Answered(x, run.runId) && Events(inputs) == x.Streamed(run.runId).events
    requires ChecksRead(hooks, run, x, inputs, start, client, handled) && m <= CheckCount(x, run.runId)
    ensures (forall i: nat :: i < m ==> !x.disconnected(i)) <==>
            (forall i: nat :: i < m ==> !Interrupted(run, inputs, client, handled, i))
  {
    var q := (i: nat) => Interrupted(run, inputs, client, handled, i);
    forall i: nat | i < m && (forall j: nat :: j < i ==> !x.disconnected(j)) ensures x.disconnected(i) <==> q(i) {
      CheckAnswer(hooks, run, x, inputs, start, client, handled, i);
    }
    FailTogether(x.disconnected, q, m);
    assert forall i: nat :: q(i) <==> Interrupted(run, inputs, client, handled, i);
  }

  lemma ExhaustedByChecks(x: Execution, runId: string)
    requires Answered(x, runId)
    ensures var d, m := x.Driven(runId), CheckCount(x, runId) - 3;
            && (d.stop == Exhausted <==> forall i: nat :: i < m ==> !x.disconnected(i))
            && (d.stop == Exhausted ==> d.checks == m)
  {
    DriveExhausts(2, Publications(x.ctx, x.Trace(runId)), x.disconnected, 0);
  }

  /** How the stream ends, by its checks. */
  lemma EscapeByChecks(x: Execution, runId: string)
    requires Answered(x, runId)
    ensures var n := CheckCount(x, runId);
            && (x.Streamed(runId).escaped <==> (forall i: nat :: i < n - 1 ==> !x.disconnected(i)) && x.disconnected(n - 1))
            && (Undisturbed(x, runId) <==> forall i: nat :: i < n ==> !x.disconnected(i))
  {
    var m := CheckCount(x, runId) - 3;
    ExhaustedByChecks(x, runId);
    assert m < m + 2 && m + 1 < m + 2;
  }

  lemma CancelledVerdict(x: Execution, runId: string)
    requires Answered(x, runId) && !x.Streamed(runId).escaped && !Undisturbed(x, runId)
    ensures LastVerdict(x.Streamed(runId).events) == Some(Cancelled)
  {
    DriveSupported(2, Publications(x.ctx, x.Trace(runId)), x.disconnected, 0);
    UndisturbedDrive(x, runId);
    var events := x.Streamed(runId).events;
    assert events[|events| - 1].eventType == RunCancelledType;
  }

  lemma EscapeOrVerdict(
    hooks: Hooks, run: RunState, x: Execution, inputs: seq<(Input, int)>, start: int, end: int)
    requires Startable(run) && x.Plain() && Answered(x, run.runId) && Events(inputs) == x.Streamed(run.runId).events
    ensures var status := Drained(hooks, run, inputs, x.Streamed(run.runId).escaped, start, end).run.status;
            if Undisturbed(x, run.runId) then status.Completed?
            else if x.Streamed(run.runId).escaped then !status.IsTerminal()
            else status.Cancelled?
  {
    RunSettles(hooks, run, x, inputs, start, end);
    if !x.Streamed(run.runId).escaped && !Undisturbed(x, run.runId) {
      CancelledVerdict(x, run.runId);
    }
  }

  lemma FateByChecks(
    hooks: Hooks, run: RunState, x: Execution, inputs: seq<(Input, int)>, start: int, end: int)
    requires Startable(run) && x.Plain() && Answered(x, run.runId) && Events(inputs) == x.Streamed(run.runId).events
    ensures var s, n := x.Streamed(run.runId), CheckCount(x, run.runId);
            var status := Drained(hooks, run, inputs, s.escaped, start, end).run.status;
            && (status.Completed? <==> forall i: nat :: i < n ==> !x.disconnected(i))
            && (status.Cancelled? <==> !forall i: nat :: i < n - 1 ==> !x.disconnected(i))
            && (status.Completed? || status.Cancelled? || !status.IsTerminal())
  {
    EscapeOrVerdict(hooks, run, x, inputs, start, end);
    EscapeByChecks(x, run.runId);
  }

  /**
   The fate of a run whose agent answers, however cancel calls are interleaved. It is completed
   exactly when nothing interrupts it before its last check, cancelled exactly when something does
   before an earlier one, and otherwise left open.
   */
  lemma FateOfRun(
    hooks: Hooks, run: RunState, x: Execution, inputs: seq<(Input, int)>, start: int, end: int,
    client: nat -> bool, handled: nat -> nat)
    requires Startable(run) && x.Plain() && Answered(x, run.runId) && Events(inputs) == x.Streamed(run.runId).events
    requires ChecksRead(hooks, run, x, inputs, start, client, handled)
    ensures var s, n := x.Streamed(run.runId), CheckCount(x, run.runId);
            var status := Drained(hooks, run, inputs, s.escaped, start, end).run.status;
            && (status.Completed? <==> forall i: nat :: i < n ==> !Interrupted(run, inputs, client, handled, i))
            && (status.Cancelled? <==> exists i: nat :: i < n - 1 && Interrupted(run, inputs, client, handled, i))
            && (status.Completed? || status.Cancelled? || !status.IsTerminal())
  {
    FateByChecks(hooks, run, x, inputs, start, end);
    ChecksAgree(hooks, run, x, inputs, start, client, handled, CheckCount(x, run.runId));
    ChecksAgree(hooks, run, x, inputs, start, client, handled, CheckCount(x, run.runId) - 1);
  }

  // -------------------------------------------------------------------- example

  /** A stream's events as inputs, with no calls between them. */
  function Uncalled(events: seq<RunEvent>, now: int): seq<(Input, int)> {
    seq(|events|, i requires 0 <= i < |events| => (FromOrchestrator(events[i]), now))
  }

  lemma {:induction false} UncalledEvents(events: seq<RunEvent>, now: int)
    ensures Events(Uncalled(events, now)) == events && !Asked(Uncalled(events, now))
  {
    if events != [] {
      assert Uncalled(events, now)[1..] == Uncalled(events[1..], now);
      UncalledEvents(events[1..], now);
    }
  }

  /** With nobody gone and no calls, each check reads a flag that is not set. */
  lemma UncalledReads(hooks: Hooks, run: RunState, x: Execution, start: int, client: nat -> bool, handled: nat -> nat)
    requires Startable(run) && !run.cancelRequested && x.Plain() && Answered(x, run.runId)
    requires forall i: nat :: !x.disconnected(i) && !client(i) && handled(i) == YieldedBefore(x, run.runId, i)
    ensures ChecksRead(hooks, run, x, Uncalled(x.Streamed(run.runId).events, start), start, client, handled)
  {
    var events := x.Streamed(run.runId).events;
    var inputs := Uncalled(events, start);
    forall i: nat | i < CheckCount(x, run.runId)
      ensures handled(i) <= |inputs| && |Events(inputs[..handled(i)])| == handled(i)
      ensures !Loop(hooks, Begin(run, start), inputs[..handled(i)]).run.cancelRequested
    {
      YieldedAreOpen(x, run.runId, i);
      assert inputs[..handled(i)] == Uncalled(events[..handled(i)], start);
      UncalledEvents(events[..handled(i)], start);
      LoopRequested(hooks, Begin(run, start), inputs[..handled(i)]);
    }
  }
}
