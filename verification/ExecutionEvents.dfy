/**
 The execution event buffer: it turns any interleaving of text deltas, reasoning deltas and
 other events into a trace of `started / delta+ / completed` segments that can be drained at
 any moment.

 `BufferState` and the functions over it specify the two classes at the end of the module;
 the lemmas in between are about whole runs of the buffer.
 */
module ExecutionEvents {
  import opened Common
  import opened Text

  datatype Kind = Assistant | Reasoning

  function Other(k: Kind): Kind {
    if k == Assistant then Reasoning else Assistant
  }

  datatype ToolPhase = ToolStarted | ToolWaitingApproval | ToolCompleted | ToolFailed | ToolCancelled

  datatype ExecEvent =
    | SegmentStarted(kind: Kind, segmentId: string)
    | SegmentDelta(kind: Kind, segmentId: string, delta: string)
    | SegmentCompleted(kind: Kind, segmentId: string)
    | ToolLifecycle(phase: ToolPhase, payload: Payload)
    | Diagnostic(payload: Payload)
    | RunCompleted(assistantText: string)
    | RunFailed(payload: Payload)
    | RunCancelled(reason: string)
  {
    predicate IsSegment() {
      SegmentStarted? || SegmentDelta? || SegmentCompleted?
    }
  }

  function SegmentId(runId: string, kind: Kind, n: nat): string {
    runId + (if kind == Assistant then ":assistant-segment-" else ":reasoning-segment-") + Decimal(n)
  }

  // ---------------------------------------------------------------- one step

  /** What the buffer and its factory keep per kind of segment. */
  datatype Side = Side(sequence: nat, openId: Option<string>, chunks: seq<string>)

  datatype Core = Core(runId: string, assistant: Side, reasoning: Side)
  {
    function Of(k: Kind): Side {
      if k == Assistant then assistant else reasoning
    }

    function With(k: Kind, side: Side): Core {
      if k == Assistant then this.(assistant := side) else this.(reasoning := side)
    }

    /** The text observed so far of one kind. */
    function Observed(k: Kind): string {
      Concat(Of(k).chunks)
    }

    predicate Closed() {
      assistant.openId.None? && reasoning.openId.None?
    }

    predicate Latest(k: Kind) {
      Of(k).openId.Some? ==> Of(k).sequence > 0 && Of(k).openId.value == SegmentId(runId, k, Of(k).sequence)
    }

    /** No two segments are open at once, and an open one carries the latest number of its kind. */
    predicate Consistent() {
      (assistant.openId.None? || reasoning.openId.None?) && Latest(Assistant) && Latest(Reasoning)
    }
  }

  function Fresh(runId: string): Core {
    Core(runId, Side(0, None, []), Side(0, None, []))
  }

  /** The outcome of one buffer method: its new fields and the events it appends. */
  datatype Step = Step(core: Core, events: seq<ExecEvent>)

  function Finish(c: Core, k: Kind): Step {
    match c.Of(k).openId
    case None => Step(c, [])
    case Some(id) => Step(c.With(k, c.Of(k).(openId := None)), [SegmentCompleted(k, id)])
  }

  function Open(c: Core, k: Kind): Step {
    if c.Of(k).openId.Some? then Step(c, [])
    else
      var n := c.Of(k).sequence + 1;
      var id := SegmentId(c.runId, k, n);
      Step(c.With(k, c.Of(k).(sequence := n, openId := Some(id))), [SegmentStarted(k, id)])
  }

  function RecordDelta(c: Core, k: Kind, delta: string): Step {
    if delta == "" then Step(c, [])
    else
      var finished := Finish(c, Other(k));
      var started := Open(finished.core, k);
      var side := started.core.Of(k);
      Step(started.core.With(k, side.(chunks := side.chunks + [delta])),
           finished.events + started.events + [SegmentDelta(k, side.openId.value, delta)])
  }

  function RecordEvent(c: Core, e: ExecEvent): Step {
    var a := if e.SegmentDelta? && e.kind == Assistant then Step(c, []) else Finish(c, Assistant);
    var r := if e.SegmentDelta? && e.kind == Reasoning then Step(a.core, []) else Finish(a.core, Reasoning);
    Step(r.core, a.events + r.events + [e])
  }

  /** Both segments finished, as on every exit path of a run. */
  function Close(c: Core): Step {
    var a := Finish(c, Assistant);
    var r := Finish(a.core, Reasoning);
    Step(r.core, a.events + r.events)
  }

  // ---------------------------------------------------------------- whole runs

  datatype Op =
    | Delta(kind: Kind, text: string)
    | Event(event: ExecEvent)
    | Drain

  function Apply(c: Core, op: Op): Step {
    match op
    case Delta(k, t) => RecordDelta(c, k, t)
    case Event(e) => RecordEvent(c, e)
    case Drain => Step(c, [])
  }

  function Run(c: Core, ops: seq<Op>): Core
    decreases |ops|
  {
    if ops == [] then c else Run(Apply(c, ops[0]).core, ops[1..])
  }

  /** The pending list at the end of a run; a drain empties it. */
  function Pending(c: Core, pending: seq<ExecEvent>, ops: seq<Op>): seq<ExecEvent>
    decreases |ops|
  {
    if ops == [] then pending
    else Pending(Apply(c, ops[0]).core, if ops[0].Drain? then [] else pending + Apply(c, ops[0]).events, ops[1..])
  }

  /** Everything handed out by the drains of a run, in order. */
  function Batches(c: Core, pending: seq<ExecEvent>, ops: seq<Op>): seq<ExecEvent>
    decreases |ops|
  {
    if ops == [] then []
    else if ops[0].Drain? then pending + Batches(c, [], ops[1..])
    else Batches(Apply(c, ops[0]).core, pending + Apply(c, ops[0]).events, ops[1..])
  }

  /** Everything the consumer ever receives: the drained batches, then what closing leaves. */
  function Output(c: Core, pending: seq<ExecEvent>, ops: seq<Op>): seq<ExecEvent> {
    Batches(c, pending, ops) + Pending(c, pending, ops) + Close(Run(c, ops)).events
  }

  /** A run with its drains taken out. */
  function Undrained(ops: seq<Op>): seq<Op> {
    if ops == [] then []
    else (if ops[0].Drain? then [] else [ops[0]]) + Undrained(ops[1..])
  }

  predicate NoSegmentEvents(ops: seq<Op>) {
    forall i :: 0 <= i < |ops| && ops[i].Event? ==> !ops[i].event.IsSegment()
  }

  lemma ApplyConsistent(c: Core, op: Op)
    requires c.Consistent()
    ensures Apply(c, op).core.Consistent()
  {
  }

  /** In every reachable state at most one segment is open. */
  lemma {:induction false} RunConsistent(c: Core, ops: seq<Op>)
    requires c.Consistent()
    ensures Run(c, ops).Consistent()
    decreases |ops|
  {
    if ops != [] {
      ApplyConsistent(c, ops[0]);
      RunConsistent(Apply(c, ops[0]).core, ops[1..]);
    }
  }

  // -------------------------------------------------- draining is transparent

  /** The events of a run and of its closing, with draining ignored. */
  function Trace(c: Core, ops: seq<Op>): seq<ExecEvent>
    decreases |ops|
  {
    if ops == [] then Close(c).events else Apply(c, ops[0]).events + Trace(Apply(c, ops[0]).core, ops[1..])
  }

  lemma TraceAssociates(a: seq<ExecEvent>, b: seq<ExecEvent>, c: seq<ExecEvent>)
    ensures (a + b) + c == a + (b + c)
  {
  }

  lemma OutputDrains(c: Core, pending: seq<ExecEvent>, ops: seq<Op>)
    requires ops != [] && ops[0].Drain?
    ensures Output(c, pending, ops) == pending + Output(c, [], ops[1..])
  {
    var batches, left := Batches(c, [], ops[1..]), Pending(c, [], ops[1..]);
    TraceAssociates(pending, batches, left);
    TraceAssociates(pending, batches + left, Close(Run(c, ops[1..])).events);
  }

  lemma OutputGrows(c: Core, pending: seq<ExecEvent>, ops: seq<Op>)
    requires ops != [] && !ops[0].Drain?
    ensures var s := Apply(c, ops[0]); Output(c, pending, ops) == Output(s.core, pending + s.events, ops[1..])
  {
  }

  lemma {:induction false} OutputIsTrace(c: Core, pending: seq<ExecEvent>, ops: seq<Op>)
    ensures Output(c, pending, ops) == pending + Trace(c, ops)
    decreases |ops|
  {
    if ops == [] {
      assert Batches(c, pending, ops) + pending == pending;
    } else if ops[0].Drain? {
      OutputDrains(c, pending, ops);
      OutputIsTrace(c, [], ops[1..]);
      TraceDrains(c, ops);
    } else {
      var s := Apply(c, ops[0]);
      OutputGrows(c, pending, ops);
      OutputIsTrace(s.core, pending + s.events, ops[1..]);
      TraceAssociates(pending, s.events, Trace(s.core, ops[1..]));
    }
  }

  lemma TraceDrains(c: Core, ops: seq<Op>)
    requires ops != [] && ops[0].Drain?
    ensures Trace(c, ops) == Trace(c, ops[1..]) && [] + Trace(c, ops[1..]) == Trace(c, ops[1..])
  {
  }

  lemma {:induction false} TraceUndrained(c: Core, ops: seq<Op>)
    ensures Trace(c, ops) == Trace(c, Undrained(ops))
    decreases |ops|
  {
    if ops != [] {
      TraceUndrained(Apply(c, ops[0]).core, ops[1..]);
      if ops[0].Drain? {
        assert Undrained(ops) == Undrained(ops[1..]);
      } else {
        assert Undrained(ops)[0] == ops[0] && Undrained(ops)[1..] == Undrained(ops[1..]);
      }
    }
  }

  /** Wherever the drains stand, the concatenated batches are the undrained output. */
  lemma DrainingIsTransparent(c: Core, pending: seq<ExecEvent>, ops: seq<Op>)
    ensures Output(c, pending, ops) == Output(c, pending, Undrained(ops))
  {
    OutputIsTrace(c, pending, ops);
    OutputIsTrace(c, pending, Undrained(ops));
    TraceUndrained(c, ops);
  }

  // ------------------------------------------------------ the output language

  /** What a run should produce, independent of any buffer: blocks and single events. */
  datatype Item = Block(kind: Kind, deltas: seq<string>) | Single(event: ExecEvent)

  predicate StartsBlock(items: seq<Item>, k: Kind) {
    items != [] && items[0].Block? && items[0].kind == k
  }

  /** Adds one non-empty delta in front: it joins a leading block of its kind. */
  function Prepend(k: Kind, t: string, rest: seq<Item>): seq<Item> {
    if StartsBlock(rest, k) then [Block(k, [t] + rest[0].deltas)] + rest[1..] else [Block(k, [t])] + rest
  }

  /** Groups every maximal stretch of same-kind non-empty deltas into one block. */
  function Items(ops: seq<Op>): seq<Item> {
    if ops == [] then []
    else
      var rest := Items(ops[1..]);
      match ops[0]
      case Drain => rest
      case Event(e) => [Single(e)] + rest
      case Delta(k, t) => if t == "" then rest else Prepend(k, t, rest)
  }

  function Deltas(k: Kind, id: string, deltas: seq<string>): seq<ExecEvent> {
    if deltas == [] then [] else [SegmentDelta(k, id, deltas[0])] + Deltas(k, id, deltas[1..])
  }

  /** How many segments of each kind have been started. */
  datatype Counts = Counts(assistant: nat, reasoning: nat)
  {
    function Of(k: Kind): nat {
      if k == Assistant then assistant else reasoning
    }

    function Bump(k: Kind): Counts {
      if k == Assistant then Counts(assistant + 1, reasoning) else Counts(assistant, reasoning + 1)
    }
  }

  function RenderBlock(k: Kind, id: string, deltas: seq<string>): seq<ExecEvent> {
    [SegmentStarted(k, id)] + Deltas(k, id, deltas) + [SegmentCompleted(k, id)]
  }

  /** Items as events, the blocks of each kind numbered on from the given counts. */
  function Render(runId: string, items: seq<Item>, counts: Counts): seq<ExecEvent> {
    if items == [] then []
    else match items[0]
      case Single(e) => [e] + Render(runId, items[1..], counts)
      case Block(k, ds) =>
        RenderBlock(k, SegmentId(runId, k, counts.Of(k) + 1), ds) + Render(runId, items[1..], counts.Bump(k))
  }

  function Resume(c: Core, items: seq<Item>): seq<ExecEvent> {
    Render(c.runId, items, Counts(c.assistant.sequence, c.reasoning.sequence))
  }

  /** What is still to come from a state in which a segment of kind `k` is open. */
  function ResumeOpen(c: Core, k: Kind, items: seq<Item>): seq<ExecEvent> {
    var id := SegmentId(c.runId, k, c.Of(k).sequence);
    if StartsBlock(items, k)
    then Deltas(k, id, items[0].deltas) + [SegmentCompleted(k, id)] + Resume(c, items[1..])
    else [SegmentCompleted(k, id)] + Resume(c, items)
  }

  function Continue(c: Core, items: seq<Item>): seq<ExecEvent> {
    if c.assistant.openId.Some? then ResumeOpen(c, Assistant, items)
    else if c.reasoning.openId.Some? then ResumeOpen(c, Reasoning, items)
    else Resume(c, items)
  }

  lemma ResumeOpenPrepend(c: Core, k: Kind, t: string, rest: seq<Item>)
    ensures var id := SegmentId(c.runId, k, c.Of(k).sequence);
            ResumeOpen(c, k, Prepend(k, t, rest)) == [SegmentDelta(k, id, t)] + ResumeOpen(c, k, rest)
  {
    var id := SegmentId(c.runId, k, c.Of(k).sequence);
    var items := Prepend(k, t, rest);
    if StartsBlock(rest, k) {
      var ds := rest[0].deltas;
      assert ([t] + ds)[1..] == ds && items[1..] == rest[1..];
      assert Deltas(k, id, [t] + ds) == [SegmentDelta(k, id, t)] + Deltas(k, id, ds);
    } else {
      assert [t][1..] == [] && items[1..] == rest;
      assert Deltas(k, id, [t]) == [SegmentDelta(k, id, t)];
    }
  }

  lemma ContinueOpen(c: Core, k: Kind, items: seq<Item>)
    requires c.Of(k).openId.Some? && c.Consistent()
    ensures Continue(c, items) == ResumeOpen(c, k, items)
    ensures c.Of(k).openId.value == SegmentId(c.runId, k, c.Of(k).sequence)
  {
  }

  lemma ContinueFinish(c: Core, k: Kind, items: seq<Item>)
    requires c.Consistent() && !StartsBlock(items, k)
    ensures Continue(c, items) == Finish(c, k).events + Continue(Finish(c, k).core, items)
  {
  }

  lemma OpenOpens(c: Core, k: Kind)
    requires c.Consistent() && c.Closed()
    ensures var o := Open(c, k);
            var id := SegmentId(c.runId, k, c.Of(k).sequence + 1);
            && o.core.Consistent() && o.core.Of(k).openId.Some? && o.events == [SegmentStarted(k, id)]
            && o.core.runId == c.runId && o.core.Of(k).sequence == c.Of(k).sequence + 1
            && o.core.Of(Other(k)).sequence == c.Of(Other(k)).sequence
  {
  }

  /** Starting a segment emits the head of its block; the rest is what an open segment still owes. */
  lemma ResumeBlock(c: Core, o: Core, k: Kind, items: seq<Item>)
    requires StartsBlock(items, k) && o.runId == c.runId
    requires o.Of(k).sequence == c.Of(k).sequence + 1 && o.Of(Other(k)).sequence == c.Of(Other(k)).sequence
    ensures var id := SegmentId(c.runId, k, c.Of(k).sequence + 1);
            Resume(c, items) == [SegmentStarted(k, id)] + ResumeOpen(o, k, items)
  {
    var id := SegmentId(c.runId, k, c.Of(k).sequence + 1);
    var ds, rest := items[0].deltas, Resume(o, items[1..]);
    BlockHead(k, id, ds, rest);
    assert Resume(c, items) == RenderBlock(k, id, ds) + rest;
  }

  lemma BlockHead(k: Kind, id: string, ds: seq<string>, rest: seq<ExecEvent>)
    ensures RenderBlock(k, id, ds) + rest == [SegmentStarted(k, id)] + (Deltas(k, id, ds) + [SegmentCompleted(k, id)] + rest)
  {
  }

  lemma ContinueStart(c: Core, k: Kind, items: seq<Item>)
    requires c.Consistent() && c.Of(Other(k)).openId.None? && StartsBlock(items, k)
    ensures Continue(c, items) == Open(c, k).events + Continue(Open(c, k).core, items)
  {
    if c.Of(k).openId.None? {
      OpenOpens(c, k);
      ContinueOpen(Open(c, k).core, k, items);
      ResumeBlock(c, Open(c, k).core, k, items);
    } else {
      assert Open(c, k).events == [];
    }
  }

  lemma RecordDeltaParts(c: Core, k: Kind, t: string)
    requires c.Consistent() && t != ""
    ensures var f := Finish(c, Other(k));
            var o := Open(f.core, k);
            var s := RecordDelta(c, k, t);
            && f.core.Consistent() && f.core.Of(Other(k)).openId.None?
            && o.core.Consistent() && o.core.Of(k).openId.Some?
            && s.core == o.core.With(k, o.core.Of(k).(chunks := o.core.Of(k).chunks + [t]))
            && s.events == f.events + (o.events + [SegmentDelta(k, o.core.Of(k).openId.value, t)])
  {
  }

  lemma DeltaOpens(c: Core, k: Kind, items: seq<Item>)
    requires c.Consistent() && StartsBlock(items, k)
    ensures var f := Finish(c, Other(k));
            var o := Open(f.core, k);
            Continue(c, items) == f.events + (o.events + ResumeOpen(o.core, k, items))
  {
    var f := Finish(c, Other(k));
    RecordDeltaParts(c, k, " ");
    ContinueFinish(c, Other(k), items);
    ContinueStart(f.core, k, items);
    ContinueOpen(Open(f.core, k).core, k, items);
  }

  lemma DeltaRests(c: Core, k: Kind, t: string, rest: seq<Item>)
    requires c.Consistent() && t != ""
    ensures Continue(RecordDelta(c, k, t).core, rest) == ResumeOpen(Open(Finish(c, Other(k)).core, k).core, k, rest)
  {
    RecordDeltaParts(c, k, t);
    ApplyConsistent(c, Delta(k, t));
    ContinueOpen(RecordDelta(c, k, t).core, k, rest);
  }

  lemma Regroup(f: seq<ExecEvent>, o: seq<ExecEvent>, d: ExecEvent, tail: seq<ExecEvent>)
    ensures f + (o + ([d] + tail)) == f + (o + [d]) + tail
  {
  }

  lemma DeltaContinues(c: Core, k: Kind, t: string, rest: seq<Item>)
    requires c.Consistent() && t != ""
    ensures Continue(c, Prepend(k, t, rest)) == RecordDelta(c, k, t).events + Continue(RecordDelta(c, k, t).core, rest)
  {
    var f := Finish(c, Other(k));
    var o := Open(f.core, k);
    var d, tail := SegmentDelta(k, o.core.Of(k).openId.value, t), ResumeOpen(o.core, k, rest);
    RecordDeltaParts(c, k, t);
    calc {
      Continue(c, Prepend(k, t, rest));
      { DeltaOpens(c, k, Prepend(k, t, rest)); }
      f.events + (o.events + ResumeOpen(o.core, k, Prepend(k, t, rest)));
      { ResumeOpenPrepend(o.core, k, t, rest); ContinueOpen(o.core, k, rest); }
      f.events + (o.events + ([d] + tail));
      { Regroup(f.events, o.events, d, tail); }
      f.events + (o.events + [d]) + tail;
      { DeltaRests(c, k, t, rest); }
      RecordDelta(c, k, t).events + Continue(RecordDelta(c, k, t).core, rest);
    }
  }

  lemma ResumeSingle(c: Core, e: ExecEvent, rest: seq<Item>)
    requires c.Closed()
    ensures Continue(c, [Single(e)] + rest) == [e] + Continue(c, rest)
  {
    assert ([Single(e)] + rest)[1..] == rest;
  }

  lemma EventContinues(c: Core, e: ExecEvent, rest: seq<Item>)
    requires c.Consistent() && !e.IsSegment()
    ensures var s := RecordEvent(c, e); Continue(c, [Single(e)] + rest) == s.events + Continue(s.core, rest)
  {
    var items := [Single(e)] + rest;
    var a := Finish(c, Assistant);
    var r := Finish(a.core, Reasoning);
    calc {
      Continue(c, items);
      { ContinueFinish(c, Assistant, items); ContinueFinish(a.core, Reasoning, items); }
      a.events + (r.events + Continue(r.core, items));
      { ResumeSingle(r.core, e, rest); }
      a.events + (r.events + ([e] + Continue(r.core, rest)));
      { Regroup(a.events, r.events, e, Continue(r.core, rest)); }
      a.events + (r.events + [e]) + Continue(r.core, rest);
      RecordEvent(c, e).events + Continue(r.core, rest);
    }
  }

  lemma ClosingContinues(c: Core)
    requires c.Consistent()
    ensures Close(c).events == Continue(c, [])
  {
    ContinueFinish(c, Assistant, []);
    ContinueFinish(Finish(c, Assistant).core, Reasoning, []);
  }

  lemma {:induction false} TraceContinues(c: Core, ops: seq<Op>)
    requires c.Consistent() && NoSegmentEvents(ops)
    ensures Trace(c, ops) == Continue(c, Items(ops))
    decreases |ops|
  {
    if ops == [] {
      ClosingContinues(c);
    } else {
      ApplyConsistent(c, ops[0]);
      TraceContinues(Apply(c, ops[0]).core, ops[1..]);
      match ops[0]
      case Drain =>
      case Event(e) => EventContinues(c, e, Items(ops[1..]));
      case Delta(k, t) =>
        if t != "" {
          DeltaContinues(c, k, t, Items(ops[1..]));
        }
    }
  }

  /**
   The output language: whatever is recorded and wherever it is drained, the consumer receives
   exactly one numbered block per maximal stretch of same-kind non-empty deltas, with the other
   events between the blocks.
   */
  lemma OutputIsRendering(runId: string, ops: seq<Op>)
    requires NoSegmentEvents(ops)
    ensures Output(Fresh(runId), [], ops) == Render(runId, Items(ops), Counts(0, 0))
  {
    OutputIsTrace(Fresh(runId), [], ops);
    TraceContinues(Fresh(runId), ops);
  }

  /** Blocks hold at least one delta, no empty ones, and no block follows one of its own kind. */
  predicate Maximal(items: seq<Item>) {
    items != [] ==>
    && (items[0].Block? ==>
          items[0].deltas != [] && "" !in items[0].deltas && !StartsBlock(items[1..], items[0].kind))
    && Maximal(items[1..])
  }

  lemma {:induction false} ItemsAreMaximal(ops: seq<Op>)
    ensures Maximal(Items(ops))
  {
    if ops != [] {
      ItemsAreMaximal(ops[1..]);
      var rest := Items(ops[1..]);
      if ops[0].Event? {
        assert Items(ops)[1..] == rest;
      } else if ops[0].Delta? && ops[0].text != "" {
        assert Items(ops)[1..] == if StartsBlock(rest, ops[0].kind) then rest[1..] else rest;
      }
    }
  }

  /**
   An independent recogniser of well-bracketed traces: a started segment is followed by one or
   more non-empty deltas of its own id and nothing else until it completes.
   */
  predicate Bracketed(trace: seq<ExecEvent>, current: Option<(Kind, string)>) {
    if trace == [] then current.None?
    else match trace[0]
      case SegmentStarted(k, id) =>
        && current.None?
        && |trace| > 1 && trace[1].SegmentDelta?
        && Bracketed(trace[1..], Some((k, id)))
      case SegmentDelta(k, id, d) => current == Some((k, id)) && d != "" && Bracketed(trace[1..], current)
      case SegmentCompleted(k, id) => current == Some((k, id)) && Bracketed(trace[1..], None)
      case _ => current.None? && Bracketed(trace[1..], None)
  }

  lemma {:induction false} DeltasBracketed(k: Kind, id: string, deltas: seq<string>, rest: seq<ExecEvent>)
    requires "" !in deltas && Bracketed(rest, None)
    ensures Bracketed(Deltas(k, id, deltas) + [SegmentCompleted(k, id)] + rest, Some((k, id)))
  {
    var trace := Deltas(k, id, deltas) + [SegmentCompleted(k, id)] + rest;
    if deltas == [] {
      assert trace[1..] == rest;
    } else {
      DeltasBracketed(k, id, deltas[1..], rest);
      assert trace[1..] == Deltas(k, id, deltas[1..]) + [SegmentCompleted(k, id)] + rest;
    }
  }

  predicate Renderable(items: seq<Item>) {
    forall i :: 0 <= i < |items| ==>
      match items[i]
      case Block(_, ds) => ds != [] && "" !in ds
      case Single(e) => !e.IsSegment()
  }

  lemma {:induction false} RenderBracketed(runId: string, items: seq<Item>, counts: Counts)
    requires Renderable(items)
    ensures Bracketed(Render(runId, items, counts), None)
  {
    if items != [] {
      match items[0]
      case Single(e) =>
        RenderBracketed(runId, items[1..], counts);
      case Block(k, ds) =>
        var id := SegmentId(runId, k, counts.Of(k) + 1);
        var rest := Render(runId, items[1..], counts.Bump(k));
        RenderBracketed(runId, items[1..], counts.Bump(k));
        BlockBracketed(k, id, ds, rest);
    }
  }

  lemma BlockBracketed(k: Kind, id: string, ds: seq<string>, rest: seq<ExecEvent>)
    requires ds != [] && "" !in ds && Bracketed(rest, None)
    ensures Bracketed(RenderBlock(k, id, ds) + rest, None)
  {
    var tail := Deltas(k, id, ds) + [SegmentCompleted(k, id)] + rest;
    DeltasBracketed(k, id, ds, rest);
    StartBracketed(k, id, tail);
    assert tail[0] == SegmentDelta(k, id, ds[0]);
    assert RenderBlock(k, id, ds) + rest == [SegmentStarted(k, id)] + tail;
  }

  lemma StartBracketed(k: Kind, id: string, tail: seq<ExecEvent>)
    requires tail != [] && Bracketed(tail, Some((k, id)))
    ensures tail[0].SegmentDelta? ==> Bracketed([SegmentStarted(k, id)] + tail, None)
  {
    assert ([SegmentStarted(k, id)] + tail)[1..] == tail;
  }

  lemma {:induction false} ItemsRenderable(ops: seq<Op>)
    requires NoSegmentEvents(ops)
    ensures Renderable(Items(ops))
  {
    if ops != [] {
      ItemsRenderable(ops[1..]);
    }
  }

  /** Once closed, the consumer's trace is a sequence of plain events and well-formed blocks. */
  lemma OutputBracketed(runId: string, ops: seq<Op>)
    requires NoSegmentEvents(ops)
    ensures Bracketed(Output(Fresh(runId), [], ops), None)
  {
    OutputIsRendering(runId, ops);
    ItemsRenderable(ops);
    RenderBracketed(runId, Items(ops), Counts(0, 0));
  }

  /** The segment a state has open. */
  function Current(c: Core): Option<(Kind, string)> {
    match c.assistant.openId
    case Some(id) => Some((Assistant, id))
    case None =>
      match c.reasoning.openId
      case Some(id) => Some((Reasoning, id))
      case None => None
  }

  lemma SingleBracketed(e: ExecEvent)
    ensures Bracketed([e], None) <==> !e.IsSegment()
  {
    assert [e][1..] == [];
  }

  /**
   Why segment events must not be recorded directly: recording one keeps the trace well
   bracketed only in the case of a non-empty delta of the very segment that is open.
   */
  lemma RecordedEventBrackets(c: Core, e: ExecEvent)
    requires c.Consistent()
    ensures Bracketed(Trace(c, [Event(e)]), Current(c))
       <==> !e.IsSegment() || (e.SegmentDelta? && e.delta != "" && Current(c) == Some((e.kind, e.segmentId)))
  {
    var s := RecordEvent(c, e);
    var close := Close(s.core).events;
    var trace := Trace(c, [Event(e)]);
    assert [Event(e)][1..] == [] && Trace(s.core, []) == close;
    assert trace == s.events + close;
    SingleBracketed(e);
    if Current(c).None? {
      assert trace == [e] && trace[1..] == [];
    } else {
      var (k, id) := Current(c).value;
      if e.SegmentDelta? && k == e.kind {
        DeltaInside(e, k, id);
        assert trace == [e, SegmentCompleted(k, id)];
      } else {
        ClosedBefore(e, k, id);
        assert trace == [SegmentCompleted(k, id), e];
      }
    }
  }

  lemma DeltaInside(e: ExecEvent, k: Kind, id: string)
    requires e.SegmentDelta? && e.kind == k
    ensures Bracketed([e, SegmentCompleted(k, id)], Some((k, id))) <==> e.delta != "" && e.segmentId == id
  {
    var done := SegmentCompleted(k, id);
    assert [e, done][1..] == [done] && [done][1..] == [];
    assert Bracketed([done], Some((k, id)));
  }

  lemma ClosedBefore(e: ExecEvent, k: Kind, id: string)
    ensures Bracketed([SegmentCompleted(k, id), e], Some((k, id))) == Bracketed([e], None)
  {
    assert [SegmentCompleted(k, id), e][1..] == [e];
  }

  // ------------------------------------------------------------- segment ids

  /** The ids of the segments of one kind that a trace starts. */
  function StartedIds(trace: seq<ExecEvent>, k: Kind): seq<string> {
    if trace == [] then []
    else (if trace[0].SegmentStarted? && trace[0].kind == k then [trace[0].segmentId] else []) + StartedIds(trace[1..], k)
  }

  lemma {:induction false} StartedIdsAppend(a: seq<ExecEvent>, b: seq<ExecEvent>, k: Kind)
    ensures StartedIds(a + b, k) == StartedIds(a, k) + StartedIds(b, k)
  {
    if a == [] {
      assert a + b == b;
    } else {
      assert (a + b)[0] == a[0] && (a + b)[1..] == a[1..] + b;
      StartedIdsAppend(a[1..], b, k);
    }
  }

  lemma {:induction false} DeltasStartNothing(j: Kind, id: string, deltas: seq<string>, k: Kind)
    ensures StartedIds(Deltas(j, id, deltas), k) == []
  {
    if deltas != [] {
      DeltasStartNothing(j, id, deltas[1..], k);
    }
  }

  function Blocks(items: seq<Item>, k: Kind): nat {
    if items == [] then 0 else (if StartsBlock(items, k) then 1 else 0) + Blocks(items[1..], k)
  }

  function Numbered(runId: string, k: Kind, first: nat, n: nat): seq<string> {
    seq(n, i requires 0 <= i < n => SegmentId(runId, k, first + i))
  }

  lemma BlockStarts(j: Kind, id: string, deltas: seq<string>, k: Kind)
    ensures StartedIds(RenderBlock(j, id, deltas), k) == if j == k then [id] else []
  {
    var rest := Deltas(j, id, deltas) + [SegmentCompleted(j, id)];
    StartedIdsAppend(Deltas(j, id, deltas), [SegmentCompleted(j, id)], k);
    DeltasStartNothing(j, id, deltas, k);
    assert StartedIds([SegmentCompleted(j, id)], k) == [];
    assert RenderBlock(j, id, deltas) == [SegmentStarted(j, id)] + rest;
  }

  lemma NumberedCons(runId: string, k: Kind, first: nat, n: nat)
    ensures Numbered(runId, k, first, n + 1) == [SegmentId(runId, k, first)] + Numbered(runId, k, first + 1, n)
  {
  }

  lemma BlockAdds(j: Kind, id: string, ds: seq<string>, rest: seq<ExecEvent>, k: Kind)
    ensures StartedIds(RenderBlock(j, id, ds) + rest, k) == if j == k then [id] + StartedIds(rest, k) else StartedIds(rest, k)
  {
    BlockStarts(j, id, ds, k);
    StartedIdsAppend(RenderBlock(j, id, ds), rest, k);
    assert [] + StartedIds(rest, k) == StartedIds(rest, k);
  }

  lemma BlockNumbers(runId: string, j: Kind, ds: seq<string>, rest: seq<ExecEvent>, counts: Counts, k: Kind, n: nat)
    requires StartedIds(rest, k) == Numbered(runId, k, counts.Bump(j).Of(k) + 1, n)
    ensures StartedIds(RenderBlock(j, SegmentId(runId, j, counts.Of(j) + 1), ds) + rest, k)
         == Numbered(runId, k, counts.Of(k) + 1, if j == k then n + 1 else n)
  {
    Bumped(counts, j, k);
    var first := counts.Of(k) + 1;
    if j == k {
      OwnBlockNumbers(runId, k, ds, rest, first, n);
    } else {
      OtherBlockNumbers(j, SegmentId(runId, j, counts.Of(j) + 1), ds, rest, k, Numbered(runId, k, first, n));
    }
  }

  lemma OtherBlockNumbers(j: Kind, id: string, ds: seq<string>, rest: seq<ExecEvent>, k: Kind, ids: seq<string>)
    requires j != k && StartedIds(rest, k) == ids
    ensures StartedIds(RenderBlock(j, id, ds) + rest, k) == ids
  {
    BlockAdds(j, id, ds, rest, k);
  }

  lemma OwnBlockNumbers(runId: string, k: Kind, ds: seq<string>, rest: seq<ExecEvent>, first: nat, n: nat)
    requires StartedIds(rest, k) == Numbered(runId, k, first + 1, n)
    ensures StartedIds(RenderBlock(k, SegmentId(runId, k, first), ds) + rest, k) == Numbered(runId, k, first, n + 1)
  {
    BlockAdds(k, SegmentId(runId, k, first), ds, rest, k);
    NumberedCons(runId, k, first, n);
  }

  lemma Bumped(counts: Counts, j: Kind, k: Kind)
    ensures counts.Bump(j).Of(k) == counts.Of(k) + if j == k then 1 else 0
  {
  }

  lemma StartedSingle(e: ExecEvent, rest: seq<ExecEvent>, k: Kind)
    requires !e.IsSegment()
    ensures StartedIds([e] + rest, k) == StartedIds(rest, k)
  {
    assert ([e] + rest)[1..] == rest;
  }

  lemma {:induction false} RenderNumbers(runId: string, items: seq<Item>, counts: Counts, k: Kind)
    requires Renderable(items)
    ensures StartedIds(Render(runId, items, counts), k) == Numbered(runId, k, counts.Of(k) + 1, Blocks(items, k))
  {
    if items != [] {
      var rest := items[1..];
      if items[0].Single? {
        RenderNumbers(runId, rest, counts, k);
        StartedSingle(items[0].event, Render(runId, rest, counts), k);
      } else {
        var j, ds := items[0].kind, items[0].deltas;
        var later := Render(runId, rest, counts.Bump(j));
        RenderNumbers(runId, rest, counts.Bump(j), k);
        BlockNumbers(runId, j, ds, later, counts, k, Blocks(rest, k));
        assert Render(runId, items, counts) == RenderBlock(j, SegmentId(runId, j, counts.Of(j) + 1), ds) + later;
      }
    }
  }

  /** Segment numbers and kinds can be read back from an id, so no two ids coincide. */
  lemma SegmentIdsDiffer(runId: string, j: Kind, m: nat, k: Kind, n: nat)
    requires (j, m) != (k, n)
    ensures SegmentId(runId, j, m) != SegmentId(runId, k, n)
  {
    if j == k {
      NumberedNamesDiffer(runId + (if j == Assistant then ":assistant-segment-" else ":reasoning-segment-"), m, n);
    } else {
      var at := |runId| + 1;
      assert SegmentId(runId, j, m)[at] != SegmentId(runId, k, n)[at];
    }
  }

  /** The segments of each kind are numbered 1, 2, ... in the order in which they start. */
  lemma OutputNumbers(runId: string, ops: seq<Op>, k: Kind)
    requires NoSegmentEvents(ops)
    ensures StartedIds(Output(Fresh(runId), [], ops), k) == Numbered(runId, k, 1, Blocks(Items(ops), k))
  {
    OutputIsRendering(runId, ops);
    ItemsRenderable(ops);
    RenderNumbers(runId, Items(ops), Counts(0, 0), k);
  }

  /** No id is started twice, within a kind or across the two kinds. */
  lemma StartedIdsDistinct(runId: string, ops: seq<Op>, j: Kind, x: nat, k: Kind, y: nat)
    requires NoSegmentEvents(ops) && (j, x) != (k, y)
    requires x < |StartedIds(Output(Fresh(runId), [], ops), j)| && y < |StartedIds(Output(Fresh(runId), [], ops), k)|
    ensures StartedIds(Output(Fresh(runId), [], ops), j)[x] != StartedIds(Output(Fresh(runId), [], ops), k)[y]
  {
    OutputNumbers(runId, ops, j);
    OutputNumbers(runId, ops, k);
    NumberedDiffer(runId, j, Blocks(Items(ops), j), x, k, Blocks(Items(ops), k), y);
  }

  lemma NumberedDiffer(runId: string, j: Kind, n: nat, x: nat, k: Kind, m: nat, y: nat)
    requires (j, x) != (k, y) && x < n && y < m
    ensures Numbered(runId, j, 1, n)[x] != Numbered(runId, k, 1, m)[y]
  {
    SegmentIdsDiffer(runId, j, 1 + x, k, 1 + y);
  }

  // -------------------------------------------------------- text conservation

  /** The concatenated delta payloads of one kind. */
  function DeltaText(trace: seq<ExecEvent>, k: Kind): string {
    if trace == [] then ""
    else (if trace[0].SegmentDelta? && trace[0].kind == k then trace[0].delta else "") + DeltaText(trace[1..], k)
  }

  function RecordedText(ops: seq<Op>, k: Kind): string {
    if ops == [] then ""
    else OpText(ops[0], k) + RecordedText(ops[1..], k)
  }

  lemma {:induction false} DeltaTextAppend(a: seq<ExecEvent>, b: seq<ExecEvent>, k: Kind)
    ensures DeltaText(a + b, k) == DeltaText(a, k) + DeltaText(b, k)
  {
    if a == [] {
      assert a + b == b;
    } else {
      assert (a + b)[0] == a[0] && (a + b)[1..] == a[1..] + b;
      DeltaTextAppend(a[1..], b, k);
      Associates(if a[0].SegmentDelta? && a[0].kind == k then a[0].delta else "", DeltaText(a[1..], k), DeltaText(b, k));
    }
  }

  lemma DeltaStepText(c: Core, j: Kind, t: string, k: Kind)
    requires c.Consistent() && t != ""
    ensures DeltaText(RecordDelta(c, j, t).events, k) == (if j == k then t else "")
    ensures RecordDelta(c, j, t).core.Observed(k) == c.Observed(k) + (if j == k then t else "")
  {
    var f := Finish(c, Other(j));
    var o := Open(f.core, j);
    DeltaTail(f.events + o.events, SegmentDelta(j, o.core.Of(j).openId.value, t), k);
    DeltaStepObserved(c, j, t, k);
  }

  lemma DeltaStepObserved(c: Core, j: Kind, t: string, k: Kind)
    requires t != ""
    ensures RecordDelta(c, j, t).core.Observed(k) == c.Observed(k) + (if j == k then t else "")
  {
    ConcatAppend(c.Of(k).chunks, [t]);
    assert Concat([t]) == t + Concat([]);
    assert RecordDelta(c, j, t).core.Of(k).chunks == c.Of(k).chunks + if j == k then [t] else [];
  }

  /** Only the last event of a recorded delta carries text. */
  lemma DeltaTail(before: seq<ExecEvent>, d: ExecEvent, k: Kind)
    requires d.SegmentDelta? && forall i :: 0 <= i < |before| ==> !before[i].SegmentDelta?
    ensures DeltaText(before + [d], k) == if d.kind == k then d.delta else ""
  {
    DeltaTextAppend(before, [d], k);
    NoDeltasNoText(before, k);
    assert [d][1..] == [];
  }

  lemma EventStepText(c: Core, e: ExecEvent, k: Kind)
    requires c.Consistent() && !e.IsSegment()
    ensures DeltaText(RecordEvent(c, e).events, k) == ""
    ensures RecordEvent(c, e).core.Observed(k) == c.Observed(k)
  {
    var s := RecordEvent(c, e);
    assert forall i :: 0 <= i < |s.events| ==> !s.events[i].SegmentDelta?;
    NoDeltasNoText(s.events, k);
  }

  lemma {:induction false} NoDeltasNoText(trace: seq<ExecEvent>, k: Kind)
    requires forall i :: 0 <= i < |trace| ==> !trace[i].SegmentDelta?
    ensures DeltaText(trace, k) == ""
  {
    if trace != [] {
      NoDeltasNoText(trace[1..], k);
    }
  }

  /** The text one operation contributes to a kind. */
  function OpText(op: Op, k: Kind): string {
    if op.Delta? && op.kind == k then op.text else ""
  }

  lemma StepText(c: Core, op: Op, k: Kind)
    requires c.Consistent() && (op.Event? ==> !op.event.IsSegment())
    ensures DeltaText(Apply(c, op).events, k) == OpText(op, k)
    ensures Apply(c, op).core.Observed(k) == c.Observed(k) + OpText(op, k)
  {
    match op {
      case Drain =>
      case Event(e) => EventStepText(c, e, k);
      case Delta(j, t) => if t != "" { DeltaStepText(c, j, t, k); }
    }
  }

  lemma {:induction false} TraceText(c: Core, ops: seq<Op>, k: Kind)
    requires c.Consistent() && NoSegmentEvents(ops)
    ensures DeltaText(Trace(c, ops), k) == RecordedText(ops, k)
    decreases |ops|
  {
    if ops == [] {
      NoDeltasNoText(Close(c).events, k);
    } else {
      var s := Apply(c, ops[0]);
      StepText(c, ops[0], k);
      ApplyConsistent(c, ops[0]);
      TraceText(s.core, ops[1..], k);
      DeltaTextAppend(s.events, Trace(s.core, ops[1..]), k);
    }
  }

  lemma {:induction false} RunText(c: Core, ops: seq<Op>, k: Kind)
    requires c.Consistent() && NoSegmentEvents(ops)
    ensures Run(c, ops).Observed(k) == c.Observed(k) + RecordedText(ops, k)
    decreases |ops|
  {
    if ops != [] {
      var s := Apply(c, ops[0]);
      StepText(c, ops[0], k);
      ApplyConsistent(c, ops[0]);
      RunText(s.core, ops[1..], k);
      Associates(c.Observed(k), OpText(ops[0], k), RecordedText(ops[1..], k));
    }
  }

  /** Text received, text in the delta payloads and text observed by the buffer are the same. */
  lemma TextIsConserved(runId: string, ops: seq<Op>, k: Kind)
    requires NoSegmentEvents(ops)
    ensures DeltaText(Output(Fresh(runId), [], ops), k) == RecordedText(ops, k) == Run(Fresh(runId), ops).Observed(k)
  {
    OutputIsTrace(Fresh(runId), [], ops);
    TraceText(Fresh(runId), ops, k);
    RunText(Fresh(runId), ops, k);
    assert [] + Trace(Fresh(runId), ops) == Trace(Fresh(runId), ops);
    assert Fresh(runId).Observed(k) == "" && "" + RecordedText(ops, k) == RecordedText(ops, k);
  }

  // ------------------------------------------------------------- the classes

  class EventFactory {
    const runId: string
    var assistantSequence: nat
    var reasoningSequence: nat

    constructor (runId: string)
      ensures this.runId == runId && assistantSequence == 0 && reasoningSequence == 0
    {
      this.runId := runId;
      assistantSequence, reasoningSequence := 0, 0;
    }

    method NextAssistantSegmentId() returns (id: string)
      modifies `assistantSequence
      ensures assistantSequence == old(assistantSequence) + 1
      ensures id == SegmentId(runId, Assistant, assistantSequence)
    {
      assistantSequence := assistantSequence + 1;
      id := runId + ":assistant-segment-" + Decimal(assistantSequence);
    }

    method NextReasoningSegmentId() returns (id: string)
      modifies `reasoningSequence
      ensures reasoningSequence == old(reasoningSequence) + 1
      ensures id == SegmentId(runId, Reasoning, reasoningSequence)
    {
      reasoningSequence := reasoningSequence + 1;
      id := runId + ":reasoning-segment-" + Decimal(reasoningSequence);
    }
  }

  class EventBuffer {
    const factory: EventFactory
    var pending: seq<ExecEvent>
    var assistantSegmentId: Option<string>
    var reasoningSegmentId: Option<string>
    var assistantChunks: seq<string>
    var reasoningChunks: seq<string>

    constructor (factory: EventFactory)
      ensures this.factory == factory && pending == []
      ensures factory.assistantSequence == factory.reasoningSequence == 0 ==> State() == Fresh(factory.runId)
    {
      this.factory := factory;
      pending, assistantChunks, reasoningChunks := [], [], [];
      assistantSegmentId, reasoningSegmentId := None, None;
    }

    function State(): Core
      reads this, factory
    {
      Core(factory.runId,
           Side(factory.assistantSequence, assistantSegmentId, assistantChunks),
           Side(factory.reasoningSequence, reasoningSegmentId, reasoningChunks))
    }

    method ObservedText(k: Kind) returns (text: string)
      ensures text == State().Observed(k)
    {
      text := Concat(if k == Assistant then assistantChunks else reasoningChunks);
    }

    method RecordAssistantDelta(delta: string)
      modifies this, factory
      ensures State() == RecordDelta(old(State()), Assistant, delta).core
      ensures pending == old(pending) + RecordDelta(old(State()), Assistant, delta).events
    {
      if delta == "" {
        return;
      }
      FinishReasoningSegment();
      if assistantSegmentId.None? {
        var id := factory.NextAssistantSegmentId();
        assistantSegmentId := Some(id);
        pending := pending + [SegmentStarted(Assistant, id)];
      }
      pending := pending + [SegmentDelta(Assistant, assistantSegmentId.value, delta)];
      assistantChunks := assistantChunks + [delta];
    }

    method RecordReasoningDelta(delta: string)
      modifies this, factory
      ensures State() == RecordDelta(old(State()), Reasoning, delta).core
      ensures pending == old(pending) + RecordDelta(old(State()), Reasoning, delta).events
    {
      if delta == "" {
        return;
      }
      FinishAssistantSegment();
      if reasoningSegmentId.None? {
        var id := factory.NextReasoningSegmentId();
        reasoningSegmentId := Some(id);
        pending := pending + [SegmentStarted(Reasoning, id)];
      }
      pending := pending + [SegmentDelta(Reasoning, reasoningSegmentId.value, delta)];
      reasoningChunks := reasoningChunks + [delta];
    }

    method Record(event: ExecEvent)
      modifies this
      ensures State() == RecordEvent(old(State()), event).core
      ensures pending == old(pending) + RecordEvent(old(State()), event).events
    {
      if !(event.SegmentDelta? && event.kind == Assistant) {
        FinishAssistantSegment();
      }
      if !(event.SegmentDelta? && event.kind == Reasoning) {
        FinishReasoningSegment();
      }
      pending := pending + [event];
    }

    method FinishAssistantSegment()
      modifies this
      ensures State() == Finish(old(State()), Assistant).core
      ensures pending == old(pending) + Finish(old(State()), Assistant).events
    {
      if assistantSegmentId.Some? {
        var id := assistantSegmentId.value;
        assistantSegmentId := None;
        pending := pending + [SegmentCompleted(Assistant, id)];
      }
    }

    method FinishReasoningSegment()
      modifies this
      ensures State() == Finish(old(State()), Reasoning).core
      ensures pending == old(pending) + Finish(old(State()), Reasoning).events
    {
      if reasoningSegmentId.Some? {
        var id := reasoningSegmentId.value;
        reasoningSegmentId := None;
        pending := pending + [SegmentCompleted(Reasoning, id)];
      }
    }

    method DrainPending() returns (drained: seq<ExecEvent>)
      modifies `pending
      ensures drained == old(pending) && pending == []
    {
      drained := pending;
      pending := [];
    }
  }
}
