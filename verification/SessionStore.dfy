/**
 Threads and runs: the run record's state machine and the store that owns the records.

 `RunState` is the value of a record and `StoreState` that of the store; every method refines
 the function of the same name on them. The clock is a parameter of each call.
 */
module SessionStore {
  import opened Common
  import opened Text
  import opened RunEvents

  datatype Role = User | AssistantRole

  datatype RunStatus = Pending | Streaming | CancellationRequested | Completed | Failed | Cancelled
  {
    predicate IsTerminal() {
      Completed? || Failed? || Cancelled?
    }
  }

  datatype RunInput = RunInput(role: Role, content: string, structured: Option<string>)

  datatype LogEntry = LogEntry(eventType: RunEventType, payload: Payload, sequence: nat, createdAt: int)

  datatype RunState = RunState(
    runId: string,
    threadId: string,
    request: RunInput,
    status: RunStatus,
    metadata: Payload,
    cancelRequested: bool,
    assistantText: Option<string>,
    eventLog: seq<LogEntry>,
    createdAt: int,
    updatedAt: int,
    startedAt: Option<int>,
    terminalAt: Option<int>)

  function NewRun(runId: string, threadId: string, request: RunInput, metadata: Payload, now: int): RunState {
    RunState(runId, threadId, request, Pending, metadata, false, None, [], now, now, None, None)
  }

  // -------------------------------------------------------- one run's changes

  datatype RunOp =
    | Touch(metadata: Payload)
    | Append(eventType: RunEventType, payload: Payload)
    | MarkStreaming(metadata: Payload)
    | RequestCancel
    | MarkCompleted(text: Option<string>, metadata: Payload)
    | MarkFailed(metadata: Payload)
    | MarkCancelled(metadata: Payload)

  function StartedAt(r: RunState, now: int): Option<int> {
    if r.startedAt.Some? then r.startedAt else Some(now)
  }

  /** Terminal marks apply in every state, also over another terminal status. */
  function MarkTerminal(r: RunState, status: RunStatus, text: Option<string>, metadata: Payload, now: int): RunState {
    r.(status := status,
       startedAt := StartedAt(r, now),
       terminalAt := Some(now),
       assistantText := if text.Some? then text else r.assistantText,
       metadata := r.metadata + metadata,
       updatedAt := now)
  }

  function ApplyRun(r: RunState, op: RunOp, now: int): RunState {
    match op
    case Touch(metadata) => r.(metadata := r.metadata + metadata, updatedAt := now)
    case Append(eventType, payload) =>
      r.(eventLog := r.eventLog + [LogEntry(eventType, payload, |r.eventLog| + 1, now)], updatedAt := now)
    case MarkStreaming(metadata) =>
      if r.status.IsTerminal() then r
      else r.(status := Streaming, startedAt := StartedAt(r, now), metadata := r.metadata + metadata, updatedAt := now)
    case RequestCancel =>
      if r.status.IsTerminal() then r
      else if r.status.Pending? then
        r.(cancelRequested := true, status := Cancelled, terminalAt := Some(now), updatedAt := now)
      else r.(cancelRequested := true, status := CancellationRequested, updatedAt := now)
    case MarkCompleted(text, metadata) => MarkTerminal(r, Completed, text, metadata, now)
    case MarkFailed(metadata) => MarkTerminal(r, Failed, None, metadata, now)
    case MarkCancelled(metadata) => MarkTerminal(r.(cancelRequested := true), Cancelled, None, metadata, now)
  }

  class RunRecord {
    const runId: string
    const threadId: string
    const request: RunInput
    const createdAt: int
    var status: RunStatus
    var metadata: Payload
    var cancelRequested: bool
    var assistantText: Option<string>
    var eventLog: seq<LogEntry>
    var updatedAt: int
    var startedAt: Option<int>
    var terminalAt: Option<int>

    function State(): RunState
      reads this
    {
      RunState(runId, threadId, request, status, metadata, cancelRequested, assistantText, eventLog,
               createdAt, updatedAt, startedAt, terminalAt)
    }

    constructor (runId: string, threadId: string, request: RunInput, metadata: Payload, now: int)
      ensures State() == NewRun(runId, threadId, request, metadata, now)
    {
      this.runId, this.threadId, this.request, this.metadata := runId, threadId, request, metadata;
      status, cancelRequested, assistantText, eventLog := Pending, false, None, [];
      createdAt, updatedAt, startedAt, terminalAt := now, now, None, None;
    }

    method TouchMetadata(extra: Payload, now: int)
      modifies this
      ensures State() == ApplyRun(old(State()), Touch(extra), now)
    {
      metadata := metadata + extra;
      updatedAt := now;
    }

    method AppendEvent(eventType: RunEventType, payload: Payload, sequence: nat, now: int)
      modifies this
      ensures sequence == |old(eventLog)| + 1 ==> State() == ApplyRun(old(State()), Append(eventType, payload), now)
      ensures State() == old(State()).(
        eventLog := old(eventLog) + [LogEntry(eventType, payload, sequence, now)], updatedAt := now)
    {
      eventLog := eventLog + [LogEntry(eventType, payload, sequence, now)];
      updatedAt := now;
    }

    method Stream(extra: Payload, now: int)
      modifies this
      ensures State() == ApplyRun(old(State()), MarkStreaming(extra), now)
    {
      if status.IsTerminal() {
        return;
      }
      status := Streaming;
      if startedAt.None? {
        startedAt := Some(now);
      }
      metadata := metadata + extra;
      updatedAt := now;
    }

    method Cancel(now: int) returns (changed: bool)
      modifies this
      ensures State() == ApplyRun(old(State()), RequestCancel, now)
      ensures changed <==> !old(status).IsTerminal()
    {
      if status.IsTerminal() {
        return false;
      }
      cancelRequested := true;
      if status == Pending {
        status := Cancelled;
        terminalAt := Some(now);
      } else {
        status := CancellationRequested;
      }
      updatedAt := now;
      changed := true;
    }

    method Terminate(terminal: RunStatus, text: Option<string>, extra: Payload, now: int)
      modifies this
      ensures State() == MarkTerminal(old(State()), terminal, text, extra, now)
    {
      status := terminal;
      if startedAt.None? {
        startedAt := Some(now);
      }
      terminalAt := Some(now);
      if text.Some? {
        assistantText := text;
      }
      metadata := metadata + extra;
      updatedAt := now;
    }

    /** Any change of the record by its method. */
    method Change(op: RunOp, now: int)
      modifies this
      ensures State() == ApplyRun(old(State()), op, now)
    {
      match op
      case Touch(extra) => TouchMetadata(extra, now);
      case Append(eventType, payload) => AppendEvent(eventType, payload, |eventLog| + 1, now);
      case MarkStreaming(extra) => Stream(extra, now);
      case RequestCancel => var changed := Cancel(now);
      case MarkCompleted(text, extra) => Terminate(Completed, text, extra, now);
      case MarkFailed(extra) => Terminate(Failed, None, extra, now);
      case MarkCancelled(extra) =>
        cancelRequested := true;
        Terminate(Cancelled, None, extra, now);
    }
  }

  // --------------------------------------------------------------- the store

  datatype Thread = Thread(threadId: string, agentId: string, metadata: Payload, lastRunId: Option<string>, updatedAt: int)

  datatype StoreError = EmptyField(field: string) | AlreadyExists(id: string) | Missing(id: string) | AgentMismatch

  /** `order` is the insertion order of the run table. */
  datatype StoreState = StoreState(threads: map<string, Thread>, runs: map<string, RunState>, order: seq<string>)

  function TouchThread(threads: map<string, Thread>, threadId: string, runId: string, now: int): map<string, Thread> {
    if threadId !in threads then threads
    else
      var t := threads[threadId];
      threads[threadId := t.(lastRunId := Some(runId),
                             metadata := t.metadata["last_run_id" := VStr(runId)],
                             updatedAt := now)]
  }

  function RequireNonEmpty(value: string, field: string): Result<string, StoreError> {
    if Strip(value) == "" then Err(EmptyField(field)) else Ok(Strip(value))
  }

  /** A given id, or a generated one: `newId` stands for a fresh uuid. */
  function ResolveId(given: Option<string>, newId: string, field: string): Result<string, StoreError> {
    if given.Some? then RequireNonEmpty(given.value, field) else Ok(newId)
  }

  function CreateThread(
    s: StoreState, agentId: string, metadata: Payload, threadId: Option<string>, newId: string, now: int)
    : Result<StoreState, StoreError>
  {
    match (RequireNonEmpty(agentId, "bound_agent_id"), ResolveId(threadId, newId, "thread_id"))
    case (Err(e), _) => Err(e)
    case (_, Err(e)) => Err(e)
    case (Ok(agent), Ok(id)) =>
      if id in s.threads then Err(AlreadyExists(id))
      else Ok(s.(threads := s.threads[id := Thread(id, agent, metadata, None, now)]))
  }

  function GetOrCreateThread(s: StoreState, threadId: string, agentId: string, metadata: Payload, now: int)
    : Result<StoreState, StoreError>
  {
    match (RequireNonEmpty(threadId, "thread_id"), RequireNonEmpty(agentId, "bound_agent_id"))
    case (Err(e), _) => Err(e)
    case (_, Err(e)) => Err(e)
    case (Ok(id), Ok(agent)) =>
      if id !in s.threads then CreateThread(s, agent, metadata, Some(id), "", now)
      else if s.threads[id].agentId != agent then Err(AgentMismatch)
      else
        var t := s.threads[id];
        Ok(s.(threads := s.threads[id := t.(metadata := t.metadata + metadata, updatedAt := now)]))
  }

  /** A run may be created for a thread that does not exist. */
  function CreateRun(
    s: StoreState, threadId: string, request: RunInput, metadata: Payload, runId: Option<string>, newId: string, now: int)
    : Result<StoreState, StoreError>
  {
    match (RequireNonEmpty(threadId, "thread_id"), ResolveId(runId, newId, "run_id"))
    case (Err(e), _) => Err(e)
    case (_, Err(e)) => Err(e)
    case (Ok(thread), Ok(id)) =>
      if id in s.runs then Err(AlreadyExists(id))
      else
        var run := NewRun(id, thread, request, metadata, now);
        Ok(StoreState(TouchThread(s.threads, thread, id, now), s.runs[id := run], s.order + [id]))
  }

  function ChangeRun(s: StoreState, runId: string, op: RunOp, now: int): Result<StoreState, StoreError> {
    match RequireNonEmpty(runId, "run_id")
    case Err(e) => Err(e)
    case Ok(id) =>
      if id !in s.runs then Err(Missing(id))
      else
        var run := ApplyRun(s.runs[id], op, now);
        Ok(s.(threads := TouchThread(s.threads, run.threadId, run.runId, now), runs := s.runs[id := run]))
  }

  class InMemoryStore {
    var threads: map<string, Thread>
    var runs: map<string, RunRecord>
    var order: seq<string>

    ghost predicate Valid()
      reads this, runs.Values
    {
      && (forall i, j :: i in runs && j in runs && i != j ==> runs[i] != runs[j])
      && (forall i :: i in runs ==> runs[i].runId == i)
    }

    ghost function Contents(): StoreState
      reads this, runs.Values
    {
      StoreState(threads, map i | i in runs :: runs[i].State(), order)
    }

    constructor ()
      ensures Valid() && Contents() == StoreState(map[], map[], [])
    {
      threads, runs, order := map[], map[], [];
      new;
      assert Contents().runs == map[];
    }

    method NewThread(agentId: string, metadata: Payload, threadId: Option<string>, newId: string, now: int)
      returns (r: Result<string, StoreError>)
      requires Valid()
      modifies `threads
      ensures Valid()
      ensures var spec := CreateThread(old(Contents()), agentId, metadata, threadId, newId, now);
              && r.Ok? == spec.Ok?
              && Contents() == (if spec.Ok? then spec.value else old(Contents()))
              && (r.Ok? ==> r.value in threads) && (r.Err? ==> r.error == spec.error)
    {
      var agent, resolved := RequireNonEmpty(agentId, "bound_agent_id"), ResolveId(threadId, newId, "thread_id");
      if agent.Err? {
        return Err(agent.error);
      }
      if resolved.Err? {
        return Err(resolved.error);
      }
      var id := resolved.value;
      if id in threads {
        return Err(AlreadyExists(id));
      }
      threads := threads[id := Thread(id, agent.value, metadata, None, now)];
      assert Contents().runs == old(Contents()).runs;
      r := Ok(id);
    }

    method AddRecord(run: RunRecord, now: int)
      requires Valid() && run.runId !in runs && run !in runs.Values
      modifies this
      ensures Valid() && runs == old(runs)[run.runId := run]
      ensures Contents() == StoreState(
        TouchThread(old(threads), run.threadId, run.runId, now),
        old(Contents()).runs[run.runId := run.State()],
        old(order) + [run.runId])
    {
      assert forall i :: i in runs ==> runs[i] != run;
      runs := runs[run.runId := run];
      order := order + [run.runId];
      threads := TouchThread(threads, run.threadId, run.runId, now);
      assert Contents().runs == old(Contents()).runs[run.runId := run.State()];
    }

    method NewRunRecord(
      threadId: string, request: RunInput, metadata: Payload, runId: Option<string>, newId: string, now: int)
      returns (r: Result<RunRecord, StoreError>)
      requires Valid()
      modifies this
      ensures Valid()
      ensures var spec := CreateRun(old(Contents()), threadId, request, metadata, runId, newId, now);
              && r.Ok? == spec.Ok?
              && Contents() == (if spec.Ok? then spec.value else old(Contents()))
              && (r.Ok? ==> r.value.runId in runs && runs[r.value.runId] == r.value)
              && (r.Err? ==> r.error == spec.error)
    {
      var thread, resolved := RequireNonEmpty(threadId, "thread_id"), ResolveId(runId, newId, "run_id");
      if thread.Err? {
        return Err(thread.error);
      }
      if resolved.Err? {
        return Err(resolved.error);
      }
      var id := resolved.value;
      if id in runs {
        return Err(AlreadyExists(id));
      }
      var run := new RunRecord(id, thread.value, request, metadata, now);
      AddRecord(run, now);
      r := Ok(run);
    }

    /** Changes one record in place; the distinctness of the records keeps the others as they were. */
    method ChangeOwned(id: string, op: RunOp, now: int)
      requires Valid() && id in runs
      modifies runs[id]
      ensures Valid()
      ensures Contents() == old(Contents()).(runs := old(Contents()).runs[id := ApplyRun(old(runs[id].State()), op, now)])
    {
      var run := runs[id];
      run.Change(op, now);
      forall i | i in runs && i != id ensures runs[i].State() == old(runs[i].State()) {
        assert runs[i] != run;
      }
      assert Contents().runs == old(Contents()).runs[id := run.State()];
    }

    /** The common body of every method that finds a run, changes it and touches its thread. */
    method ChangeRecord(runId: string, op: RunOp, now: int) returns (r: Result<RunRecord, StoreError>)
      requires Valid()
      modifies `threads, runs.Values
      ensures Valid() && runs == old(runs)
      ensures var spec := ChangeRun(old(Contents()), runId, op, now);
              && r.Ok? == spec.Ok?
              && Contents() == (if spec.Ok? then spec.value else old(Contents()))
              && (r.Ok? ==> Strip(runId) in runs && runs[Strip(runId)] == r.value)
              && (r.Err? ==> r.error == spec.error)
    {
      var resolved := RequireNonEmpty(runId, "run_id");
      if resolved.Err? {
        return Err(resolved.error);
      }
      var id := resolved.value;
      if id !in runs {
        return Err(Missing(id));
      }
      ChangeOwned(id, op, now);
      label changed:
      var run := runs[id];
      threads := TouchThread(threads, run.threadId, run.runId, now);
      assert Contents().runs == old@changed(Contents()).runs;
      r := Ok(run);
    }

    method RequestRunCancel(runId: string, now: int) returns (r: Result<bool, StoreError>)
      requires Valid()
      modifies `threads, runs.Values
      ensures Valid() && runs == old(runs)
      ensures var spec := ChangeRun(old(Contents()), runId, RequestCancel, now);
              && r.Ok? == spec.Ok?
              && Contents() == (if spec.Ok? then spec.value else old(Contents()))
              && (r.Ok? ==> r.value == !old(Contents()).runs[Strip(runId)].status.IsTerminal())
    {
      var before := Strip(runId) in runs && runs[Strip(runId)].status.IsTerminal();
      var changed := ChangeRecord(runId, RequestCancel, now);
      match changed
      case Ok(_) => r := Ok(!before);
      case Err(e) => r := Err(e);
    }
  }
}
