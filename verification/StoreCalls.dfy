/** What the calls of the session store do, told by the fields they change, and when they refuse. */
module StoreCalls {
  import opened Common
  import opened Text
  import opened RunEvents
  import opened SessionStore
  import opened RunLifecycle

  /** One mapping over another: what is added wins, and the rest stays. */
  predicate Merges(all: Payload, before: Payload, added: Payload) {
    && all.Keys == before.Keys + added.Keys
    && (forall key :: key in added ==> all[key] == added[key])
    && (forall key :: key in before && key !in added ==> all[key] == before[key])
  }

  /** Identity, thread, request and creation time never change. */
  predicate SameRun(r: RunState, r': RunState) {
    r'.runId == r.runId && r'.threadId == r.threadId && r'.request == r.request && r'.createdAt == r.createdAt
  }

  /** Metadata and update time aside, nothing changes. */
  predicate OnlyTouched(r: RunState, r': RunState) {
    && SameRun(r, r') && r'.status == r.status && r'.cancelRequested == r.cancelRequested
    && r'.assistantText == r.assistantText && r'.eventLog == r.eventLog
    && r'.startedAt == r.startedAt && r'.terminalAt == r.terminalAt
  }

  lemma TouchTells(r: RunState, metadata: Payload, now: int)
    ensures var r' := ApplyRun(r, Touch(metadata), now);
            OnlyTouched(r, r') && Merges(r'.metadata, r.metadata, metadata) && r'.updatedAt == now
  {
  }

  lemma AppendTells(r: RunState, eventType: RunEventType, payload: Payload, now: int)
    ensures var r' := ApplyRun(r, Append(eventType, payload), now);
            && OnlyTouched(r, r'.(eventLog := r.eventLog)) && r'.metadata == r.metadata && r'.updatedAt == now
            && |r'.eventLog| == |r.eventLog| + 1 && r.eventLog <= r'.eventLog
            && var entry := r'.eventLog[|r.eventLog|];
            && entry.eventType == eventType && entry.payload == payload
            && entry.sequence == |r.eventLog| + 1 && entry.createdAt == now
  {
  }

  /** Streaming starts once, keeps a first start time, and never re-opens a run. */
  lemma StreamTells(r: RunState, metadata: Payload, now: int)
    ensures var r' := ApplyRun(r, MarkStreaming(metadata), now);
            if r.status.IsTerminal() then r' == r
            else
              && SameRun(r, r') && r'.status.Streaming? && r'.cancelRequested == r.cancelRequested
              && r'.startedAt.Some? && (r.startedAt.Some? ==> r'.startedAt == r.startedAt)
              && (r.startedAt.None? ==> r'.startedAt == Some(now))
              && r'.terminalAt == r.terminalAt && r'.assistantText == r.assistantText && r'.eventLog == r.eventLog
              && Merges(r'.metadata, r.metadata, metadata) && r'.updatedAt == now
  {
  }

  /** A pending run is cancelled at once, a started one is only asked, an ended one is left alone. */
  lemma RequestTells(r: RunState, now: int)
    ensures var r' := ApplyRun(r, RequestCancel, now);
            if r.status.IsTerminal() then r' == r
            else
              && SameRun(r, r') && r'.cancelRequested && r'.metadata == r.metadata && r'.updatedAt == now
              && r'.startedAt == r.startedAt && r'.assistantText == r.assistantText && r'.eventLog == r.eventLog
              && (if r.status.Pending? then r'.status.Cancelled? && r'.terminalAt == Some(now)
                  else r'.status.CancellationRequested? && r'.terminalAt == r.terminalAt)
  {
  }

  /** The status, reply and metadata that a terminal mark asks for. */
  predicate Marks(op: RunOp, status: RunStatus, text: Option<string>, metadata: Payload) {
    || (op == MarkCompleted(text, metadata) && status.Completed?)
    || (op == MarkFailed(metadata) && status.Failed? && text.None?)
    || (op == MarkCancelled(metadata) && status.Cancelled? && text.None?)
  }

  /** A terminal mark applies to every run, keeps an older reply unless it brings one, and the log. */
  lemma EndTells(r: RunState, op: RunOp, status: RunStatus, text: Option<string>, metadata: Payload, now: int)
    requires Marks(op, status, text, metadata)
    ensures var r' := ApplyRun(r, op, now);
            && SameRun(r, r') && r'.status == status && r'.terminalAt == Some(now) && r'.updatedAt == now
            && (r.startedAt.Some? ==> r'.startedAt == r.startedAt) && (r.startedAt.None? ==> r'.startedAt == Some(now))
            && (text.Some? ==> r'.assistantText == text) && (text.None? ==> r'.assistantText == r.assistantText)
            && (r'.cancelRequested <==> r.cancelRequested || status.Cancelled?)
            && r'.eventLog == r.eventLog && Merges(r'.metadata, r.metadata, metadata)
  {
  }

  // ------------------------------------------------------------------ the store

  predicate Blank(s: string) {
    Strip(s) == ""
  }

  /** A given id counts stripped; a generated one as it is. */
  function IdOf(given: Option<string>, newId: string): string {
    match given
    case Some(id) => Strip(id)
    case None => newId
  }

  /** A thread is created unless an argument is blank or the id is taken; the first of these is reported. */
  lemma CreateThreadTells(
    s: StoreState, agentId: string, metadata: Payload, threadId: Option<string>, newId: string, now: int)
    ensures var r := CreateThread(s, agentId, metadata, threadId, newId, now);
            if Blank(agentId) then r == Err(EmptyField("bound_agent_id"))
            else if threadId.Some? && Blank(threadId.value) then r == Err(EmptyField("thread_id"))
            else if IdOf(threadId, newId) in s.threads then r == Err(AlreadyExists(IdOf(threadId, newId)))
            else
              && r.Ok? && r.value.runs == s.runs && r.value.order == s.order
              && r.value.threads.Keys == s.threads.Keys + {IdOf(threadId, newId)}
              && (forall id :: id in s.threads ==> r.value.threads[id] == s.threads[id])
              && var t := r.value.threads[IdOf(threadId, newId)];
              && t.threadId == IdOf(threadId, newId) && t.agentId == Strip(agentId)
              && t.metadata == metadata && t.lastRunId.None? && t.updatedAt == now
  {
  }

  /** An existing thread is taken only for its own agent, and then gains the metadata. */
  lemma GetOrCreateTells(s: StoreState, threadId: string, agentId: string, metadata: Payload, now: int)
    requires !Blank(threadId) && !Blank(agentId)
    ensures var r, id := GetOrCreateThread(s, threadId, agentId, metadata, now), Strip(threadId);
            if id in s.threads && s.threads[id].agentId != Strip(agentId) then r == Err(AgentMismatch)
            else
              && r.Ok? && r.value.runs == s.runs && r.value.order == s.order
              && r.value.threads.Keys == s.threads.Keys + {id}
              && (forall other :: other in s.threads && other != id ==> r.value.threads[other] == s.threads[other])
              && var t := r.value.threads[id];
              && t.threadId == (if id in s.threads then s.threads[id].threadId else id)
              && t.agentId == Strip(agentId) && t.updatedAt == now
              && Merges(t.metadata, if id in s.threads then s.threads[id].metadata else map[], metadata)
              && t.lastRunId == (if id in s.threads then s.threads[id].lastRunId else None)
  {
    StripIdempotent(threadId);
    StripIdempotent(agentId);
  }

  lemma GetOrCreateRefuses(s: StoreState, threadId: string, agentId: string, metadata: Payload, now: int)
    requires Blank(threadId) || Blank(agentId)
    ensures GetOrCreateThread(s, threadId, agentId, metadata, now)
         == Err(EmptyField(if Blank(threadId) then "thread_id" else "bound_agent_id"))
  {
  }

  /** A run's thread, if it exists, names it as its last one; no other thread changes. */
  predicate TouchesThread(s: StoreState, s': StoreState, threadId: string, runId: string, now: int) {
    && s'.threads.Keys == s.threads.Keys
    && (forall id :: id in s.threads && id != threadId ==> s'.threads[id] == s.threads[id])
    && (threadId in s.threads ==>
          var t, t' := s.threads[threadId], s'.threads[threadId];
          && t'.lastRunId == Some(runId) && t'.updatedAt == now && t'.agentId == t.agentId && t'.threadId == t.threadId
          && Merges(t'.metadata, t.metadata, map["last_run_id" := VStr(runId)]))
  }

  lemma TouchThreadTells(s: StoreState, s': StoreState, threadId: string, runId: string, now: int)
    requires s'.threads == TouchThread(s.threads, threadId, runId, now)
    ensures TouchesThread(s, s', threadId, runId, now)
  {
  }

  /** A run is created pending, with nothing logged, unless an argument is blank or the id is taken. */
  lemma CreateRunTells(
    s: StoreState, threadId: string, request: RunInput, metadata: Payload, runId: Option<string>, newId: string, now: int)
    ensures var r, id := CreateRun(s, threadId, request, metadata, runId, newId, now), IdOf(runId, newId);
            if Blank(threadId) then r == Err(EmptyField("thread_id"))
            else if runId.Some? && Blank(runId.value) then r == Err(EmptyField("run_id"))
            else if id in s.runs then r == Err(AlreadyExists(id))
            else
              && r.Ok? && r.value.order == s.order + [id] && r.value.runs.Keys == s.runs.Keys + {id}
              && (forall other :: other in s.runs ==> r.value.runs[other] == s.runs[other])
              && TouchesThread(s, r.value, Strip(threadId), id, now)
              && var run := r.value.runs[id];
              && run.runId == id && run.threadId == Strip(threadId) && run.request == request && run.metadata == metadata
              && run.status.Pending? && !run.cancelRequested && run.assistantText.None? && run.eventLog == []
              && run.createdAt == now && run.updatedAt == now && run.startedAt.None? && run.terminalAt.None?
  {
    var r := CreateRun(s, threadId, request, metadata, runId, newId, now);
    if r.Ok? {
      TouchThreadTells(s, r.value, Strip(threadId), IdOf(runId, newId), now);
    }
  }

  /** A change finds its run by the stripped id; it changes that run as told above, and names it in its thread. */
  lemma ChangeRunTells(s: StoreState, runId: string, op: RunOp, now: int)
    ensures var r, id := ChangeRun(s, runId, op, now), Strip(runId);
            if Blank(runId) then r == Err(EmptyField("run_id"))
            else if id !in s.runs then r == Err(Missing(id))
            else
              && r.Ok? && r.value.order == s.order && r.value.runs.Keys == s.runs.Keys
              && (forall other :: other in s.runs && other != id ==> r.value.runs[other] == s.runs[other])
              && r.value.runs[id] == ApplyRun(s.runs[id], op, now)
              && TouchesThread(s, r.value, s.runs[id].threadId, s.runs[id].runId, now)
  {
    var r := ChangeRun(s, runId, op, now);
    if r.Ok? {
      TouchThreadTells(s, r.value, s.runs[Strip(runId)].threadId, s.runs[Strip(runId)].runId, now);
    }
  }

  // ------------------------------------------------------------------ listings

  lemma OfThread(s: StoreState, now: int, threadId: string, run: RunState)
    requires StoreInv(s, now)
    ensures run in ThreadRuns(s, threadId, s.order) <==>
      run.runId in s.runs && s.runs[run.runId] == run && run.threadId == threadId
  {
    ThreadRunsMembers(s, threadId, s.order, run);
    forall id | id in s.runs ensures s.runs[id].runId == id && id in s.order {
      assert RunOk(s, id, now);
    }
  }

  /** A listing holds the runs of the thread and no others, the older ones first and equally old ones by id. */
  lemma ListingTells(s: StoreState, now: int, threadId: string)
    requires StoreInv(s, now)
    ensures var r := ListRuns(s, threadId);
            && (r.Err? <==> Blank(threadId))
            && (r.Ok? ==>
                  && (forall run :: run in r.value <==>
                        run.runId in s.runs && s.runs[run.runId] == run && run.threadId == Strip(threadId))
                  && forall i, j :: 0 <= i < j < |r.value| ==>
                       && r.value[i].createdAt <= r.value[j].createdAt
                       && (r.value[i].createdAt == r.value[j].createdAt ==> LexLeq(r.value[i].runId, r.value[j].runId)))
  {
    if !Blank(threadId) {
      var unsorted, runs := ThreadRuns(s, Strip(threadId), s.order), ListRuns(s, threadId).value;
      SortSorts(unsorted);
      forall run
        ensures run in runs <==> run.runId in s.runs && s.runs[run.runId] == run && run.threadId == Strip(threadId)
      {
        assert run in runs <==> run in multiset(runs);
        assert run in unsorted <==> run in multiset(unsorted);
        OfThread(s, now, Strip(threadId), run);
      }
    }
  }
}
