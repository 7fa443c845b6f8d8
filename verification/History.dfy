/** Chat history: what each run projects to, how interrupted text is recovered, and role alternation. */
module History {
  import opened Common
  import opened Text
  import opened RunEvents
  import opened SessionStore
  import RunLifecycle

  datatype Message = Message(role: Role, content: string, createdAt: int)

  datatype ModelMessage = UserPrompt(content: string) | AssistantReply(content: string)

  // -------------------------------------------------------------- projection

  /** The stripped text, or nothing when it is blank. */
  function Normalize(value: Option<string>): Option<string> {
    if value.None? || Strip(value.value) == "" then None else Some(Strip(value.value))
  }

  /** `structured` is the serialised payload of a request that has a non-empty one. */
  function UserText(request: RunInput): Option<string> {
    match Normalize(Some(request.content))
    case None => None
    case Some(text) =>
      if request.structured.None? then Some(text)
      else Some(text + "\n\n[structured_payload]\n" + request.structured.value)
  }

  /** The concatenated text deltas of a log. */
  function LogText(log: seq<LogEntry>): string {
    if log == [] then "" else DeltaOf(log[0].eventType, log[0].payload) + LogText(log[1..])
  }

  function AwaitsUserInput(r: RunState): bool {
    && r.status == Failed
    && Get(r.metadata, "terminal_payload").VMap?
    && Get(Get(r.metadata, "terminal_payload").m, "code") == VStr("awaiting_user_input")
  }

  /** The prompt an entry offers when it carries a form request. */
  function FormPrompt(e: LogEntry): Option<string> {
    if e.eventType != ToolEventType || !Get(e.payload, "formRequest").VMap? then None
    else
      var summary := Normalize(GetString(e.payload, "summary"));
      var title := Normalize(GetString(Get(e.payload, "formRequest").m, "title"));
      if summary.Some? then summary
      else if title.Some? then Some("请填写表单：" + title.value)
      else None
  }

  /** The prompt of the latest entry that offers one. */
  function LastPrompt(log: seq<LogEntry>): Option<string> {
    if log == [] then None
    else
      var last := FormPrompt(log[|log| - 1]);
      if last.Some? then last else LastPrompt(log[..|log| - 1])
  }

  function InterruptedText(r: RunState): Option<string> {
    var text := Normalize(r.assistantText);
    if text.Some? then text else Normalize(Some(LogText(r.eventLog)))
  }

  function AssistantText(r: RunState): Option<string> {
    match r.status
    case Completed => Normalize(r.assistantText)
    case Failed => if AwaitsUserInput(r) then Normalize(LastPrompt(r.eventLog)) else InterruptedText(r)
    case Cancelled => InterruptedText(r)
    case _ => None
  }

  function TimeOfEnd(r: RunState): int {
    if r.terminalAt.Some? then r.terminalAt.value else r.updatedAt
  }

  function ProjectedMessages(r: RunState): seq<Message> {
    var user, reply := UserText(r.request), AssistantText(r);
    if !r.status.IsTerminal() || user.None? then []
    else
      var asked := Message(r.request.role, user.value, r.createdAt);
      if reply.Some? then [asked, Message(AssistantRole, reply.value, TimeOfEnd(r))]
      else if r.status == Completed then []
      else [asked]
  }

  function Flatten(runs: seq<RunState>): seq<Message> {
    if runs == [] then [] else ProjectedMessages(runs[0]) + Flatten(runs[1..])
  }

  function ListMessages(s: StoreState, threadId: string): seq<Message> {
    if threadId !in s.threads then []
    else match RunLifecycle.ListRuns(s, threadId)
      case Ok(runs) => Flatten(runs)
      case Err(_) => []
  }

  // ----------------------------------------------------------- recovery loops

  lemma {:induction false} LogTextAppend(a: seq<LogEntry>, b: seq<LogEntry>)
    ensures LogText(a + b) == LogText(a) + LogText(b)
  {
    if a == [] {
      assert a + b == b;
    } else {
      assert (a + b)[0] == a[0] && (a + b)[1..] == a[1..] + b;
      LogTextAppend(a[1..], b);
    }
  }

  lemma LogTextSnoc(log: seq<LogEntry>, i: nat)
    requires i < |log|
    ensures LogText(log[..i + 1]) == LogText(log[..i]) + DeltaOf(log[i].eventType, log[i].payload)
  {
    LogTextAppend(log[..i], [log[i]]);
    assert log[..i + 1] == log[..i] + [log[i]];
    assert [log[i]][1..] == [];
  }

  method ResolveInterruptedText(r: RunState) returns (text: Option<string>)
    ensures text == InterruptedText(r)
  {
    text := Normalize(r.assistantText);
    if text.Some? {
      return;
    }
    var deltas: seq<string> := [];
    for i := 0 to |r.eventLog|
      invariant Concat(deltas) == LogText(r.eventLog[..i])
    {
      var e := r.eventLog[i];
      LogTextSnoc(r.eventLog, i);
      if e.eventType == TextDeltaType {
        var delta := GetString(e.payload, "delta");
        if delta.Some? {
          ConcatAppend(deltas, [delta.value]);
          assert Concat([delta.value]) == delta.value + Concat([]);
          deltas := deltas + [delta.value];
        }
      }
    }
    assert r.eventLog[..|r.eventLog|] == r.eventLog;
    text := Normalize(Some(Concat(deltas)));
  }

  method ResolveAwaitingText(r: RunState) returns (text: Option<string>)
    ensures text == LastPrompt(r.eventLog)
  {
    var i := |r.eventLog|;
    assert r.eventLog[..i] == r.eventLog;
    while i > 0
      invariant i <= |r.eventLog|
      invariant LastPrompt(r.eventLog) == LastPrompt(r.eventLog[..i])
    {
      i := i - 1;
      var e := r.eventLog[i];
      assert r.eventLog[..i + 1][..i] == r.eventLog[..i];
      if e.eventType == ToolEventType && Get(e.payload, "formRequest").VMap? {
        var summary := Normalize(GetString(e.payload, "summary"));
        if summary.Some? {
          return summary;
        }
        var title := Normalize(GetString(Get(e.payload, "formRequest").m, "title"));
        if title.Some? {
          return Some("请填写表单：" + title.value);
        }
      }
    }
    text := None;
  }

  // -------------------------------------------------------------- alternation

  function Expected(i: nat): Role {
    if i % 2 == 0 then User else AssistantRole
  }

  /** Roles alternate, the first one being that of position `start`. */
  ghost predicate Alternates(messages: seq<Message>, start: nat) {
    forall k :: 0 <= k < |messages| ==> messages[k].role == Expected(start + k)
  }

  function ToModel(m: Message): ModelMessage {
    if m.role == User then UserPrompt(m.content) else AssistantReply(m.content)
  }

  /** Fails at the first message out of turn, and otherwise keeps every message in order. */
  method BuildMessageHistory(messages: seq<Message>) returns (r: Result<seq<ModelMessage>, nat>)
    ensures r.Ok? <==> Alternates(messages, 0)
    ensures r.Ok? ==> |r.value| == |messages| && forall k :: 0 <= k < |messages| ==> r.value[k] == ToModel(messages[k])
    ensures r.Err? ==> r.error < |messages| && messages[r.error].role != Expected(r.error)
    ensures r.Err? ==> Alternates(messages[..r.error], 0)
  {
    var history := [];
    for i := 0 to |messages|
      invariant |history| == i
      invariant forall k :: 0 <= k < i ==> history[k] == ToModel(messages[k]) && messages[k].role == Expected(k)
    {
      if messages[i].role != Expected(i) {
        return Err(i);
      }
      history := history + [ToModel(messages[i])];
    }
    r := Ok(history);
  }

  predicate AllUserRequests(runs: seq<RunState>) {
    forall i :: 0 <= i < |runs| ==> runs[i].request.role == User
  }

  /** A run left with a user message and no reply is followed by a run that shows anything. */
  ghost predicate LoneFollowed(runs: seq<RunState>) {
    exists i, j :: 0 <= i < j < |runs| && |ProjectedMessages(runs[i])| == 1 && ProjectedMessages(runs[j]) != []
  }

  lemma {:induction false} FlattenEmpty(runs: seq<RunState>)
    ensures Flatten(runs) == [] <==> forall j :: 0 <= j < |runs| ==> ProjectedMessages(runs[j]) == []
  {
    if runs != [] {
      FlattenEmpty(runs[1..]);
    }
  }

  lemma {:induction false} FlattenStartsWithUser(runs: seq<RunState>)
    requires AllUserRequests(runs)
    ensures Flatten(runs) != [] ==> Flatten(runs)[0].role == User
  {
    if runs != [] {
      FlattenStartsWithUser(runs[1..]);
    }
  }

  lemma LoneFollowedTail(runs: seq<RunState>)
    requires runs != [] && LoneFollowed(runs)
    ensures LoneFollowed(runs[1..]) || (|ProjectedMessages(runs[0])| == 1 && Flatten(runs[1..]) != [])
  {
    var tail := runs[1..];
    FlattenEmpty(tail);
    var i, j :| 0 <= i < j < |runs| && |ProjectedMessages(runs[i])| == 1 && ProjectedMessages(runs[j]) != [];
    assert tail[j - 1] == runs[j];
    if i > 0 {
      assert tail[i - 1] == runs[i];
    }
  }

  lemma LoneFollowedHead(runs: seq<RunState>)
    requires runs != []
    requires LoneFollowed(runs[1..]) || (|ProjectedMessages(runs[0])| == 1 && Flatten(runs[1..]) != [])
    ensures LoneFollowed(runs)
  {
    var tail := runs[1..];
    if LoneFollowed(tail) {
      var i, j :| 0 <= i < j < |tail| && |ProjectedMessages(tail[i])| == 1 && ProjectedMessages(tail[j]) != [];
      assert runs[i + 1] == tail[i] && runs[j + 1] == tail[j];
    } else {
      FlattenEmpty(tail);
      var j :| 0 <= j < |tail| && ProjectedMessages(tail[j]) != [];
      assert runs[j + 1] == tail[j];
    }
  }

  lemma LoneFollowedCons(runs: seq<RunState>)
    requires runs != []
    ensures LoneFollowed(runs) <==>
      LoneFollowed(runs[1..]) || (|ProjectedMessages(runs[0])| == 1 && Flatten(runs[1..]) != [])
  {
    if LoneFollowed(runs) {
      LoneFollowedTail(runs);
    }
    if LoneFollowed(runs[1..]) || (|ProjectedMessages(runs[0])| == 1 && Flatten(runs[1..]) != []) {
      LoneFollowedHead(runs);
    }
  }

  lemma TurnShape(r: RunState)
    requires r.request.role == User
    ensures |ProjectedMessages(r)| <= 2 && Alternates(ProjectedMessages(r), 0)
  {
  }

  lemma AlternatesAppend(head: seq<Message>, rest: seq<Message>)
    requires |head| <= 2 && Alternates(head, 0)
    ensures Alternates(head + rest, 0) <==> if |head| == 1 then Alternates(rest, 1) else Alternates(rest, 0)
  {
    var all := head + rest;
    assert forall k :: 0 <= k < |rest| ==> all[|head| + k] == rest[k];
    assert forall k: nat :: Expected(2 + k) == Expected(k);
    if Alternates(all, 0) {
      forall k | 0 <= k < |rest| ensures rest[k].role == Expected(|head| + k) {
        assert all[|head| + k].role == Expected(|head| + k);
      }
    }
  }

  /**
   With user-role requests, the history of a listing is accepted exactly when no run that shows
   a lone user message is followed by a run that shows any message.
   */
  lemma {:induction false} HistoryAccepted(runs: seq<RunState>)
    requires AllUserRequests(runs)
    ensures Alternates(Flatten(runs), 0) <==> !LoneFollowed(runs)
  {
    if runs != [] {
      HistoryAccepted(runs[1..]);
      LoneFollowedCons(runs);
      FlattenStartsWithUser(runs[1..]);
      TurnShape(runs[0]);
      AlternatesAppend(ProjectedMessages(runs[0]), Flatten(runs[1..]));
    }
  }

  function Failing(content: string): RunState {
    ApplyRun(NewRun("run-1", "thread", RunInput(User, content, None), map[], 0), MarkFailed(map[]), 1)
  }

  function Answered(content: string, reply: string): RunState {
    ApplyRun(NewRun("run-2", "thread", RunInput(User, content, None), map[], 2), MarkCompleted(Some(reply), map[]), 3)
  }

  lemma FailingShows(content: string)
    requires Strip(content) != ""
    ensures |ProjectedMessages(Failing(content))| == 1
  {
    assert Strip("") == "";
  }

  lemma AnsweredShows(content: string, reply: string)
    requires Strip(content) != "" && Strip(reply) != ""
    ensures |ProjectedMessages(Answered(content, reply))| == 2
  {
  }

  lemma PairBlocked(a: RunState, b: RunState)
    requires a.request.role == User && b.request.role == User
    requires |ProjectedMessages(a)| == 1 && ProjectedMessages(b) != []
    ensures !Alternates(Flatten([a, b]), 0)
  {
    var runs := [a, b];
    assert runs[0] == a && runs[1] == b;
    assert LoneFollowed(runs);
    HistoryAccepted(runs);
  }

  /** A question that failed without a reply, and an answered one after it. */
  lemma LoneQuestionBlocks(question: string, reply: string)
    requires Strip(question) != "" && Strip(reply) != ""
    ensures !Alternates(Flatten([Failing(question), Answered(question, reply)]), 0)
  {
    var a, b := Failing(question), Answered(question, reply);
    FailingShows(question);
    AnsweredShows(question, reply);
    assert ProjectedMessages(b) != [];
    PairBlocked(a, b);
  }

  /** Once a history is rejected, no runs that come after make it acceptable again. */
  lemma RejectionStays(runs: seq<RunState>, more: seq<RunState>)
    requires AllUserRequests(runs + more) && !Alternates(Flatten(runs), 0)
    ensures !Alternates(Flatten(runs + more), 0)
  {
    assert forall i :: 0 <= i < |runs| ==> (runs + more)[i] == runs[i];
    HistoryAccepted(runs);
    HistoryAccepted(runs + more);
    var i, j :| 0 <= i < j < |runs| && |ProjectedMessages(runs[i])| == 1 && ProjectedMessages(runs[j]) != [];
    assert (runs + more)[i] == runs[i] && (runs + more)[j] == runs[j];
  }

  /** When exactly a run shows a user message and nothing else. */
  lemma LoneUserMessage(r: RunState)
    ensures |ProjectedMessages(r)| == 1 <==>
      && (r.status == Failed || r.status == Cancelled)
      && Strip(r.request.content) != ""
      && (if AwaitsUserInput(r) then Normalize(LastPrompt(r.eventLog)).None?
          else Normalize(r.assistantText).None? && Strip(LogText(r.eventLog)) == "")
  {
  }

  // ------------------------------------------------------ what is shown, and when

  predicate Filled(text: Option<string>) {
    text.Some? && Strip(text.value) != ""
  }

  /** The message repeats a run's request: its role, its stripped text with any payload, and its time. */
  predicate ShowsRequest(m: Message, r: RunState) {
    && m.role == r.request.role && m.createdAt == r.createdAt
    && m.content == Strip(r.request.content) +
         match r.request.structured
         case None => ""
         case Some(payload) => "\n\n[structured_payload]\n" + payload
  }

  /** The message is a reply that was given when the run ended. */
  predicate ShowsReply(m: Message, r: RunState, text: string) {
    && m.role == AssistantRole && m.content == text
    && m.createdAt == match r.terminalAt case Some(end) => end case None => r.updatedAt
  }

  /** The run failed because it waits for a form. */
  predicate WaitsForForm(r: RunState) {
    && r.status.Failed? && "terminal_payload" in r.metadata && r.metadata["terminal_payload"].VMap?
    && var payload := r.metadata["terminal_payload"].m;
    "code" in payload && payload["code"] == VStr("awaiting_user_input")
  }

  /** A payload has a text that is not blank. */
  predicate HasText(m: Payload, key: string) {
    key in m && m[key].VStr? && Strip(m[key].s) != ""
  }

  /** A tool event with a form offers its summary as a prompt, or else the form's title. */
  predicate Offers(e: LogEntry, text: string) {
    && e.eventType == ToolEventType && "formRequest" in e.payload && e.payload["formRequest"].VMap?
    && var form := e.payload["formRequest"].m;
    if HasText(e.payload, "summary") then text == Strip(e.payload["summary"].s)
    else HasText(form, "title") && text == "请填写表单：" + Strip(form["title"].s)
  }

  lemma PromptOffered(e: LogEntry)
    ensures forall text :: FormPrompt(e) == Some(text) <==> Offers(e, text)
  {
  }

  ghost predicate NoOffers(log: seq<LogEntry>) {
    forall i, text :: 0 <= i < |log| ==> !Offers(log[i], text)
  }

  ghost predicate LastOffer(log: seq<LogEntry>, i: int, text: string) {
    0 <= i < |log| && Offers(log[i], text) && NoOffers(log[i + 1..])
  }

  lemma NoOffersSnoc(log: seq<LogEntry>, e: LogEntry)
    requires NoOffers(log) && FormPrompt(e).None?
    ensures NoOffers(log + [e])
  {
    PromptOffered(e);
  }

  /** The prompt is that of the last entry that offers one. */
  lemma {:induction false} LastPromptOffered(log: seq<LogEntry>)
    ensures LastPrompt(log).None? ==> NoOffers(log)
    ensures LastPrompt(log).Some? ==> exists i :: LastOffer(log, i, LastPrompt(log).value)
  {
    if log != [] {
      var init, e := log[..|log| - 1], log[|log| - 1];
      assert log == init + [e];
      PromptOffered(e);
      LastPromptOffered(init);
      if FormPrompt(e).Some? {
        LastIsLastOffer(init, e, FormPrompt(e).value);
      } else if LastPrompt(init).Some? {
        var i :| LastOffer(init, i, LastPrompt(init).value);
        LastOfferStays(init, e, i, LastPrompt(init).value);
      } else {
        NoOffersSnoc(init, e);
      }
    }
  }

  lemma LastIsLastOffer(log: seq<LogEntry>, e: LogEntry, text: string)
    requires Offers(e, text)
    ensures LastOffer(log + [e], |log|, text)
  {
    assert (log + [e])[|log| + 1..] == [];
  }

  lemma LastOfferStays(log: seq<LogEntry>, e: LogEntry, i: int, text: string)
    requires LastOffer(log, i, text) && FormPrompt(e).None?
    ensures LastOffer(log + [e], i, text)
  {
    NoOffersSnoc(log[i + 1..], e);
    assert (log + [e])[i + 1..] == log[i + 1..] + [e];
  }

  lemma OfferIsFilled(e: LogEntry, text: string)
    requires Offers(e, text)
    ensures text != "" && Strip(text) == text
  {
    if HasText(e.payload, "summary") {
      StripIdempotent(e.payload["summary"].s);
    } else {
      var title := Strip(e.payload["formRequest"].m["title"].s);
      StripStripped(e.payload["formRequest"].m["title"].s);
      assert text[0] == '请' && text[|text| - 1] == title[|title| - 1];
      StripFixed(text);
    }
  }

  /** The reply that a failed or cancelled run is left with. */
  predicate ShowsRecovered(ms: seq<Message>, r: RunState) {
    if Filled(r.assistantText) then |ms| == 2 && ShowsReply(ms[1], r, Strip(r.assistantText.value))
    else if Strip(LogText(r.eventLog)) != "" then |ms| == 2 && ShowsReply(ms[1], r, Strip(LogText(r.eventLog)))
    else |ms| == 1
  }

  /**
   What a run shows: nothing while it is open or without a text of its own; otherwise its request, and
   then its reply. A completed run without a reply shows nothing at all.
   */
  lemma MessagesShown(r: RunState)
    ensures var ms := ProjectedMessages(r);
            if !r.status.IsTerminal() || Strip(r.request.content) == "" then ms == []
            else if r.status.Completed? then
              if Filled(r.assistantText)
              then |ms| == 2 && ShowsRequest(ms[0], r) && ShowsReply(ms[1], r, Strip(r.assistantText.value))
              else ms == []
            else
              && 1 <= |ms| <= 2 && ShowsRequest(ms[0], r)
              && (!WaitsForForm(r) ==> ShowsRecovered(ms, r))
  {
    if r.request.structured.None? {
      assert Strip(r.request.content) + "" == Strip(r.request.content);
    }
  }

  /** A run that waits for a form shows the prompt last offered, and otherwise only its request. */
  lemma PromptShown(r: RunState)
    requires WaitsForForm(r) && Strip(r.request.content) != ""
    ensures var ms := ProjectedMessages(r);
            if NoOffers(r.eventLog) then |ms| == 1
            else |ms| == 2 && exists i, text :: LastOffer(r.eventLog, i, text) && ShowsReply(ms[1], r, text)
  {
    LastPromptOffered(r.eventLog);
    if LastPrompt(r.eventLog).Some? {
      var text := LastPrompt(r.eventLog).value;
      var i :| LastOffer(r.eventLog, i, text);
      OfferIsFilled(r.eventLog[i], text);
      assert ShowsReply(ProjectedMessages(r)[1], r, text);
    }
  }

  lemma {:induction false} FlattenAt(runs: seq<RunState>, j: nat)
    requires j < |runs|
    ensures Flatten(runs) == Flatten(runs[..j]) + ProjectedMessages(runs[j]) + Flatten(runs[j + 1..])
  {
    if j == 0 {
      assert runs[..0] == [];
      assert [] + ProjectedMessages(runs[0]) == ProjectedMessages(runs[0]);
    } else {
      FlattenAt(runs[1..], j - 1);
      assert runs[..j][1..] == runs[1..][..j - 1] && runs[..j][0] == runs[0];
      assert runs[1..][j - 1] == runs[j] && runs[1..][j..] == runs[j + 1..];
      FourAssociate(ProjectedMessages(runs[0]), Flatten(runs[1..][..j - 1]), ProjectedMessages(runs[j]), Flatten(runs[j + 1..]));
    }
  }

  lemma FourAssociate(a: seq<Message>, b: seq<Message>, c: seq<Message>, d: seq<Message>)
    ensures a + (b + c + d) == (a + b) + c + d
  {
  }

  /** The list of a thread holds what its runs show, run by run in their order, and that of no other thread. */
  lemma ThreadShows(s: StoreState, threadId: string)
    ensures threadId !in s.threads ==> ListMessages(s, threadId) == []
    ensures threadId in s.threads && RunLifecycle.ListRuns(s, threadId).Ok? ==>
      var runs := RunLifecycle.ListRuns(s, threadId).value;
      forall j :: 0 <= j < |runs| ==>
        ListMessages(s, threadId) == Flatten(runs[..j]) + ProjectedMessages(runs[j]) + Flatten(runs[j + 1..])
  {
    if threadId in s.threads && RunLifecycle.ListRuns(s, threadId).Ok? {
      var runs := RunLifecycle.ListRuns(s, threadId).value;
      forall j | 0 <= j < |runs|
        ensures ListMessages(s, threadId) == Flatten(runs[..j]) + ProjectedMessages(runs[j]) + Flatten(runs[j + 1..])
      {
        FlattenAt(runs, j);
      }
    }
  }

  /** The same for the messages the store lists for a thread, in order of creation and then of id. */
  lemma ThreadHistory(s: StoreState, threadId: string)
    requires threadId in s.threads && RunLifecycle.ListRuns(s, threadId).Ok?
    requires AllUserRequests(RunLifecycle.ListRuns(s, threadId).value)
    ensures var runs := RunLifecycle.ListRuns(s, threadId).value;
            && RunLifecycle.Sorted(runs)
            && (Alternates(ListMessages(s, threadId), 0) <==> !LoneFollowed(runs))
  {
    RunLifecycle.SortSorts(RunLifecycle.ThreadRuns(s, Strip(threadId), s.order));
    HistoryAccepted(RunLifecycle.ListRuns(s, threadId).value);
  }
}
