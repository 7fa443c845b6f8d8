/** What holds of every run and every thread in every reachable state of the store. */
module RunLifecycle {
  import opened Common
  import opened Text
  import opened SessionStore

  // ---------------------------------------------------------------- one run

  ghost predicate RunInv(r: RunState) {
    && (r.terminalAt.Some? <==> r.status.IsTerminal())
    && (!r.status.Pending? && !r.status.Cancelled? ==> r.startedAt.Some?)
    && (r.status.CancellationRequested? || r.status.Cancelled? ==> r.cancelRequested)
    && (r.status.Pending? ==> r.startedAt.None? && !r.cancelRequested)
    && (r.startedAt.Some? ==> r.createdAt <= r.startedAt.value <= r.updatedAt)
    && (r.terminalAt.Some? ==> r.createdAt <= r.terminalAt.value <= r.updatedAt)
    && (r.terminalAt.Some? && r.startedAt.Some? ==> r.startedAt.value <= r.terminalAt.value)
    && r.createdAt <= r.updatedAt
    && (forall k :: 0 <= k < |r.eventLog| ==> r.eventLog[k].sequence == k + 1)
  }

  /** What no later change of a run undoes. */
  ghost predicate Evolves(r: RunState, r': RunState) {
    && r'.runId == r.runId && r'.threadId == r.threadId && r'.request == r.request && r'.createdAt == r.createdAt
    && (r.status.IsTerminal() ==> r'.status.IsTerminal())
    && (r.cancelRequested ==> r'.cancelRequested)
    && (r.startedAt.Some? ==> r'.startedAt == r.startedAt)
    && (r.assistantText.Some? ==> r'.assistantText.Some?)
    && (!r.status.Pending? ==> !r'.status.Pending?)
    && r.eventLog <= r'.eventLog
  }

  lemma EndKeepsRun(
    r: RunState, requested: bool, status: RunStatus, text: Option<string>, metadata: Payload, now: int)
    requires RunInv(r) && r.updatedAt <= now && status.IsTerminal()
    requires r.cancelRequested || status.Cancelled? ==> requested
    ensures var ended := MarkTerminal(r.(cancelRequested := requested), status, text, metadata, now);
            RunInv(ended) && ended.updatedAt <= now && Evolves(r, ended)
  {
  }

  lemma LogKeepsRun(r: RunState, entry: LogEntry)
    requires RunInv(r) && r.updatedAt <= entry.createdAt && entry.sequence == |r.eventLog| + 1
    ensures var logged := r.(eventLog := r.eventLog + [entry], updatedAt := entry.createdAt);
            RunInv(logged) && Evolves(r, logged)
  {
  }

  lemma RequestKeepsRun(r: RunState, now: int)
    requires RunInv(r) && r.updatedAt <= now
    ensures var asked := ApplyRun(r, RequestCancel, now); RunInv(asked) && asked.updatedAt <= now && Evolves(r, asked)
  {
  }

  lemma StreamKeepsRun(r: RunState, metadata: Payload, now: int)
    requires RunInv(r) && r.updatedAt <= now
    ensures var streaming := ApplyRun(r, MarkStreaming(metadata), now);
            RunInv(streaming) && streaming.updatedAt <= now && Evolves(r, streaming)
  {
  }

  /** Every change keeps the invariant, given that the clock does not go back. */
  lemma ChangeKeepsRun(r: RunState, op: RunOp, now: int)
    requires RunInv(r) && r.updatedAt <= now
    ensures RunInv(ApplyRun(r, op, now)) && ApplyRun(r, op, now).updatedAt <= now
    ensures Evolves(r, ApplyRun(r, op, now))
  {
    match op
    case Touch(metadata) =>
    case Append(eventType, payload) => LogKeepsRun(r, LogEntry(eventType, payload, |r.eventLog| + 1, now));
    case MarkStreaming(metadata) => StreamKeepsRun(r, metadata, now);
    case RequestCancel => RequestKeepsRun(r, now);
    case MarkCompleted(text, metadata) => EndKeepsRun(r, r.cancelRequested, Completed, text, metadata, now);
    case MarkFailed(metadata) => EndKeepsRun(r, r.cancelRequested, Failed, None, metadata, now);
    case MarkCancelled(metadata) => EndKeepsRun(r, true, Cancelled, None, metadata, now);
  }

  // --------------------------------------------------------------- the store

  datatype StoreOp =
    | DoCreateThread(agentId: string, metadata: Payload, thread: Option<string>, newId: string)
    | DoGetOrCreateThread(threadId: string, agentId: string, metadata: Payload)
    | DoCreateRun(threadId: string, request: RunInput, metadata: Payload, run: Option<string>, newId: string)
    | DoChangeRun(runId: string, op: RunOp)

  /** A call that raises changes nothing. */
  function ApplyStore(s: StoreState, op: StoreOp, now: int): StoreState {
    var r := match op
      case DoCreateThread(agentId, metadata, thread, newId) => CreateThread(s, agentId, metadata, thread, newId, now)
      case DoGetOrCreateThread(threadId, agentId, metadata) => GetOrCreateThread(s, threadId, agentId, metadata, now)
      case DoCreateRun(threadId, request, metadata, run, newId) =>
        CreateRun(s, threadId, request, metadata, run, newId, now)
      case DoChangeRun(runId, op) => ChangeRun(s, runId, op, now);
    if r.Ok? then r.value else s
  }

  /** A sequence of calls, each after some more time has passed. */
  function RunStore(s: StoreState, ops: seq<(StoreOp, nat)>, now: int): StoreState
    decreases |ops|
  {
    if ops == [] then s
    else RunStore(ApplyStore(s, ops[0].0, now + ops[0].1), ops[1..], now + ops[0].1)
  }

  const EMPTY := StoreState(map[], map[], [])

  ghost predicate RunOk(s: StoreState, id: string, now: int)
    requires id in s.runs
  {
    var r := s.runs[id];
    RunInv(r) && r.runId == id && r.updatedAt <= now && r.threadId != "" && Strip(r.threadId) == r.threadId
  }

  ghost predicate ThreadOk(s: StoreState, id: string)
    requires id in s.threads
  {
    var last := s.threads[id].lastRunId;
    last.Some? ==> last.value in s.runs && s.runs[last.value].threadId == id
  }

  ghost predicate OrderOk(s: StoreState) {
    && (forall i, j :: 0 <= i < j < |s.order| ==> s.order[i] != s.order[j])
    && (forall id :: id in s.order <==> id in s.runs)
  }

  ghost predicate StoreInv(s: StoreState, now: int) {
    && (forall id :: id in s.runs ==> RunOk(s, id, now))
    && (forall id :: id in s.threads ==> ThreadOk(s, id))
    && OrderOk(s)
  }

  /** Runs are never lost, and each only evolves. */
  ghost predicate StoreEvolves(s: StoreState, s': StoreState) {
    && (forall id :: id in s.runs ==> id in s'.runs && Evolves(s.runs[id], s'.runs[id]))
    && (forall id :: id in s.threads ==> id in s'.threads)
    && s.order <= s'.order
  }

  lemma CreateRunKeeps(
    s: StoreState, threadId: string, request: RunInput, metadata: Payload, run: Option<string>, newId: string, now: int)
    requires StoreInv(s, now) && CreateRun(s, threadId, request, metadata, run, newId, now).Ok?
    ensures var s' := CreateRun(s, threadId, request, metadata, run, newId, now).value;
            StoreInv(s', now) && StoreEvolves(s, s')
  {
    var s' := CreateRun(s, threadId, request, metadata, run, newId, now).value;
    StripIdempotent(threadId);
    forall id | id in s'.runs ensures RunOk(s', id, now) {
      if id in s.runs {
        assert RunOk(s, id, now);
      }
    }
    forall id | id in s'.threads ensures ThreadOk(s', id) {
      assert ThreadOk(s, id);
    }
  }

  /** One run gives way to a later state of itself, and its thread names it. */
  lemma ReplacedRunKeeps(s: StoreState, run: RunState, now: int)
    requires StoreInv(s, now) && run.runId in s.runs
    requires RunInv(run) && run.updatedAt <= now && Evolves(s.runs[run.runId], run)
    ensures var s' := s.(threads := TouchThread(s.threads, run.threadId, run.runId, now), runs := s.runs[run.runId := run]);
            StoreInv(s', now) && StoreEvolves(s, s')
  {
    var s' := s.(threads := TouchThread(s.threads, run.threadId, run.runId, now), runs := s.runs[run.runId := run]);
    forall id | id in s'.runs ensures RunOk(s', id, now) {
      assert RunOk(s, id, now);
    }
    forall id | id in s'.threads ensures ThreadOk(s', id) {
      TouchedThreadOk(s, run, now, id);
    }
  }

  lemma TouchedThreadOk(s: StoreState, run: RunState, now: int, id: string)
    requires id in s.threads && ThreadOk(s, id) && run.runId in s.runs && s.runs[run.runId].threadId == run.threadId
    ensures var s' := s.(threads := TouchThread(s.threads, run.threadId, run.runId, now), runs := s.runs[run.runId := run]);
            ThreadOk(s', id)
  {
  }

  lemma ChangeRunKeeps(s: StoreState, runId: string, op: RunOp, now: int)
    requires StoreInv(s, now) && ChangeRun(s, runId, op, now).Ok?
    ensures var s' := ChangeRun(s, runId, op, now).value; StoreInv(s', now) && StoreEvolves(s, s')
  {
    assert RunOk(s, Strip(runId), now);
    ChangeKeepsRun(s.runs[Strip(runId)], op, now);
    ReplacedRunKeeps(s, ApplyRun(s.runs[Strip(runId)], op, now), now);
  }

  lemma ThreadsKeep(s: StoreState, s': StoreState, now: int)
    requires StoreInv(s, now) && s'.runs == s.runs && s'.order == s.order
    requires forall id :: id in s.threads ==> id in s'.threads && s'.threads[id].lastRunId == s.threads[id].lastRunId
    requires forall id :: id in s'.threads && id !in s.threads ==> s'.threads[id].lastRunId == None
    ensures StoreInv(s', now) && StoreEvolves(s, s')
  {
    forall id | id in s'.runs ensures RunOk(s', id, now) {
      assert RunOk(s, id, now);
    }
    forall id | id in s'.threads ensures ThreadOk(s', id) {
      assert id in s.threads ==> ThreadOk(s, id);
    }
  }

  lemma CreateThreadKeeps(
    s: StoreState, agentId: string, metadata: Payload, threadId: Option<string>, newId: string, now: int)
    requires StoreInv(s, now) && CreateThread(s, agentId, metadata, threadId, newId, now).Ok?
    ensures var s' := CreateThread(s, agentId, metadata, threadId, newId, now).value;
            StoreInv(s', now) && StoreEvolves(s, s')
  {
    ThreadsKeep(s, CreateThread(s, agentId, metadata, threadId, newId, now).value, now);
  }

  lemma GetOrCreateKeeps(s: StoreState, threadId: string, agentId: string, metadata: Payload, now: int)
    requires StoreInv(s, now) && GetOrCreateThread(s, threadId, agentId, metadata, now).Ok?
    ensures var s' := GetOrCreateThread(s, threadId, agentId, metadata, now).value;
            StoreInv(s', now) && StoreEvolves(s, s')
  {
    if Strip(threadId) !in s.threads {
      CreateThreadKeeps(s, Strip(agentId), metadata, Some(Strip(threadId)), "", now);
    } else {
      ThreadsKeep(s, GetOrCreateThread(s, threadId, agentId, metadata, now).value, now);
    }
  }

  lemma NothingChanges(s: StoreState)
    ensures StoreEvolves(s, s)
  {
  }

  lemma ThreadStepKeeps(s: StoreState, op: StoreOp, now: int)
    requires StoreInv(s, now) && (op.DoCreateThread? || op.DoGetOrCreateThread?)
    ensures StoreInv(ApplyStore(s, op, now), now) && StoreEvolves(s, ApplyStore(s, op, now))
  {
    NothingChanges(s);
    match op
    case DoCreateThread(agentId, metadata, thread, newId) =>
      if CreateThread(s, agentId, metadata, thread, newId, now).Ok? {
        CreateThreadKeeps(s, agentId, metadata, thread, newId, now);
      }
    case DoGetOrCreateThread(threadId, agentId, metadata) =>
      if GetOrCreateThread(s, threadId, agentId, metadata, now).Ok? {
        GetOrCreateKeeps(s, threadId, agentId, metadata, now);
      }
    case _ =>
  }

  /** Whatever is called, the store keeps its invariant and only evolves. */
  lemma StepKeeps(s: StoreState, op: StoreOp, now: int)
    requires StoreInv(s, now)
    ensures StoreInv(ApplyStore(s, op, now), now) && StoreEvolves(s, ApplyStore(s, op, now))
  {
    NothingChanges(s);
    match op
    case DoCreateThread(_, _, _, _) => ThreadStepKeeps(s, op, now);
    case DoGetOrCreateThread(_, _, _) => ThreadStepKeeps(s, op, now);
    case DoCreateRun(threadId, request, metadata, run, newId) =>
      if CreateRun(s, threadId, request, metadata, run, newId, now).Ok? {
        CreateRunKeeps(s, threadId, request, metadata, run, newId, now);
      }
    case DoChangeRun(runId, op) =>
      if ChangeRun(s, runId, op, now).Ok? {
        ChangeRunKeeps(s, runId, op, now);
      }
  }

  lemma TimePasses(s: StoreState, now: int, later: int)
    requires StoreInv(s, now) && now <= later
    ensures StoreInv(s, later)
  {
    forall id | id in s.runs ensures RunOk(s, id, later) {
      assert RunOk(s, id, now);
    }
  }

  lemma EvolvesChains(s: StoreState, m: StoreState, t: StoreState)
    requires StoreEvolves(s, m) && StoreEvolves(m, t)
    ensures StoreEvolves(s, t)
  {
  }

  function Elapsed(ops: seq<(StoreOp, nat)>): nat {
    if ops == [] then 0 else ops[0].1 + Elapsed(ops[1..])
  }

  lemma {:induction false} RunKeeps(s: StoreState, ops: seq<(StoreOp, nat)>, now: int)
    requires StoreInv(s, now)
    ensures StoreInv(RunStore(s, ops, now), now + Elapsed(ops)) && StoreEvolves(s, RunStore(s, ops, now))
    decreases |ops|
  {
    if ops != [] {
      var later := now + ops[0].1;
      var m := ApplyStore(s, ops[0].0, later);
      TimePasses(s, now, later);
      StepKeeps(s, ops[0].0, later);
      RunKeeps(m, ops[1..], later);
      assert RunStore(s, ops, now) == RunStore(m, ops[1..], later) && now + Elapsed(ops) == later + Elapsed(ops[1..]);
      EvolvesChains(s, m, RunStore(m, ops[1..], later));
    }
  }

  /** Every reachable store state satisfies the invariants of its runs, threads and order. */
  lemma ReachableStore(ops: seq<(StoreOp, nat)>)
    ensures StoreInv(RunStore(EMPTY, ops, 0), Elapsed(ops))
  {
    RunKeeps(EMPTY, ops, 0);
  }

  /** The bridge's cancellation checker: once true for a run it stays true through all later calls. */
  predicate CancellationSeen(s: StoreState, runId: string, clientDisconnected: bool) {
    clientDisconnected || (runId in s.runs && s.runs[runId].cancelRequested)
  }

  lemma CancellationStays(ops: seq<(StoreOp, nat)>, more: seq<(StoreOp, nat)>, runId: string)
    requires CancellationSeen(RunStore(EMPTY, ops, 0), runId, false)
    ensures CancellationSeen(RunStore(RunStore(EMPTY, ops, 0), more, Elapsed(ops)), runId, false)
  {
    ReachableStore(ops);
    RunKeeps(RunStore(EMPTY, ops, 0), more, Elapsed(ops));
  }

  // ---------------------------------------------------------- listing of runs

  predicate RunLeq(a: RunState, b: RunState) {
    a.createdAt < b.createdAt || (a.createdAt == b.createdAt && LexLeq(a.runId, b.runId))
  }

  function Insert(r: RunState, sorted: seq<RunState>): seq<RunState> {
    if sorted == [] || RunLeq(r, sorted[0]) then [r] + sorted else [sorted[0]] + Insert(r, sorted[1..])
  }

  function Sort(runs: seq<RunState>): seq<RunState> {
    if runs == [] then [] else Insert(runs[0], Sort(runs[1..]))
  }

  /** The runs of a thread in insertion order. */
  function ThreadRuns(s: StoreState, threadId: string, order: seq<string>): seq<RunState> {
    if order == [] then []
    else
      (if order[0] in s.runs && s.runs[order[0]].threadId == threadId then [s.runs[order[0]]] else []) +
      ThreadRuns(s, threadId, order[1..])
  }

  function ListRuns(s: StoreState, threadId: string): Result<seq<RunState>, StoreError> {
    match RequireNonEmpty(threadId, "thread_id")
    case Err(e) => Err(e)
    case Ok(id) => Ok(Sort(ThreadRuns(s, id, s.order)))
  }

  function GetLatestRun(s: StoreState, threadId: string): Result<Option<RunState>, StoreError> {
    if threadId in s.threads && s.threads[threadId].lastRunId.Some? && s.threads[threadId].lastRunId.value in s.runs
    then Ok(Some(s.runs[s.threads[threadId].lastRunId.value]))
    else match ListRuns(s, threadId)
      case Err(e) => Err(e)
      case Ok(runs) => Ok(if runs == [] then None else Some(runs[|runs| - 1]))
  }

  ghost predicate Sorted(runs: seq<RunState>) {
    forall i, j :: 0 <= i < j < |runs| ==> RunLeq(runs[i], runs[j])
  }

  lemma RunLeqOrders(a: RunState, b: RunState, c: RunState)
    ensures RunLeq(a, b) || RunLeq(b, a)
    ensures RunLeq(a, b) && RunLeq(b, c) ==> RunLeq(a, c)
  {
    LexTotal(a.runId, b.runId);
    if LexLeq(a.runId, b.runId) && LexLeq(b.runId, c.runId) {
      LexTransitive(a.runId, b.runId, c.runId);
    }
  }

  lemma {:induction false} InsertMembers(r: RunState, sorted: seq<RunState>)
    ensures multiset(Insert(r, sorted)) == multiset(sorted) + multiset{r}
    ensures forall x :: x in Insert(r, sorted) ==> x == r || x in sorted
  {
    if sorted != [] && !RunLeq(r, sorted[0]) {
      InsertMembers(r, sorted[1..]);
      assert sorted == [sorted[0]] + sorted[1..];
    }
  }

  lemma {:induction false} InsertSorts(r: RunState, sorted: seq<RunState>)
    requires Sorted(sorted)
    ensures Sorted(Insert(r, sorted))
  {
    if sorted != [] {
      var rest := Insert(r, sorted[1..]);
      if RunLeq(r, sorted[0]) {
        forall j | 0 <= j < |sorted| ensures RunLeq(r, sorted[j]) {
          RunLeqOrders(r, sorted[0], sorted[j]);
        }
      } else {
        InsertSorts(r, sorted[1..]);
        InsertMembers(r, sorted[1..]);
        RunLeqOrders(r, sorted[0], r);
        forall j | 0 <= j < |rest| ensures RunLeq(sorted[0], rest[j]) {
          assert rest[j] in rest;
        }
      }
    }
  }

  /** A listing holds the same runs, in order of creation and then of id. */
  lemma {:induction false} SortSorts(runs: seq<RunState>)
    ensures Sorted(Sort(runs)) && multiset(Sort(runs)) == multiset(runs)
  {
    if runs != [] {
      SortSorts(runs[1..]);
      InsertSorts(runs[0], Sort(runs[1..]));
      InsertMembers(runs[0], Sort(runs[1..]));
      assert runs == [runs[0]] + runs[1..];
    }
  }

  lemma {:induction false} ThreadRunsMembers(s: StoreState, threadId: string, order: seq<string>, r: RunState)
    ensures r in ThreadRuns(s, threadId, order) <==>
      exists id :: id in order && id in s.runs && s.runs[id] == r && r.threadId == threadId
  {
    if order != [] {
      ThreadRunsMembers(s, threadId, order[1..], r);
    }
  }

  lemma {:induction false} NoThreadRuns(s: StoreState, threadId: string, order: seq<string>)
    ensures ThreadRuns(s, threadId, order) == [] <==>
      forall id :: id in order && id in s.runs ==> s.runs[id].threadId != threadId
  {
    if order != [] {
      NoThreadRuns(s, threadId, order[1..]);
    }
  }

  /** The listing's part of `GetLatestRun`. */
  lemma LastListed(s: StoreState, threadId: string)
    requires OrderOk(s)
    ensures var listed := Sort(ThreadRuns(s, threadId, s.order));
            && (listed == [] <==> forall id :: id in s.runs ==> s.runs[id].threadId != threadId)
            && (listed != [] ==>
                  var last := listed[|listed| - 1];
                  last.threadId == threadId && exists id :: id in s.runs && s.runs[id] == last)
  {
    var runs := ThreadRuns(s, threadId, s.order);
    SortedEmpty(runs);
    NoThreadRuns(s, threadId, s.order);
    if runs != [] {
      LastOfSorted(runs);
      ThreadRunsMembers(s, threadId, s.order, Sort(runs)[|Sort(runs)| - 1]);
    }
  }

  lemma SortedEmpty(runs: seq<RunState>)
    ensures Sort(runs) == [] <==> runs == []
  {
    SortSorts(runs);
    assert |multiset(Sort(runs))| == |multiset(runs)|;
  }

  lemma LastOfSorted(runs: seq<RunState>)
    requires Sort(runs) != []
    ensures Sort(runs)[|Sort(runs)| - 1] in runs
  {
    SortSorts(runs);
    var last := Sort(runs)[|Sort(runs)| - 1];
    assert last in multiset(Sort(runs));
    assert last in multiset(runs);
  }

  /**
   The latest run of a thread is absent exactly when the thread has no run at all, also when the
   thread was never created; and a latest run always belongs to the thread.
   */
  lemma LatestRun(s: StoreState, now: int, threadId: string)
    requires StoreInv(s, now)
    ensures var latest := GetLatestRun(s, threadId);
            && (latest.Ok? <==> Strip(threadId) != "")
            && (latest == Ok(None) <==>
                  Strip(threadId) != "" && forall id :: id in s.runs ==> s.runs[id].threadId != Strip(threadId))
            && (latest.Ok? && latest.value.Some? ==>
                  var run := latest.value.value;
                  run.threadId == Strip(threadId) && run.runId in s.runs && s.runs[run.runId] == run)
  {
    if threadId in s.threads && s.threads[threadId].lastRunId.Some? {
      assert ThreadOk(s, threadId);
      assert RunOk(s, s.threads[threadId].lastRunId.value, now);
    } else {
      LastListed(s, Strip(threadId));
      forall id | id in s.runs ensures s.runs[id].runId == id {
        assert RunOk(s, id, now);
      }
    }
  }
}
