/**
 What the agent's event stream reports about raw tool calls, told from the history of its events
 alone: which parts are observed, whose arguments are completed, and which calls the final check fails.
 */
module AgentReports {
  import opened Common
  import opened Text
  import opened ToolLifecycle
  import opened AgentStream

  predicate Touches(e: StreamEvent, index: int) {
    (e.ToolPart? || e.ToolDelta?) && e.index == index
  }

  predicate Nonempty(s: Option<string>) {
    s.Some? && s.value != ""
  }

  /** The fragments of a part's name: those of its deltas, since the part last started with a name. */
  function NameFragments(events: seq<StreamEvent>, index: int): seq<string> {
    if events == [] then []
    else
      var before, e := NameFragments(events[..|events| - 1], index), events[|events| - 1];
      if !Touches(e, index) || !Nonempty(e.name) then before
      else if e.ToolPart? then [e.name.value]
      else before + [e.name.value]
  }

  /** The id a part was given last; a starting part gives none if its own is empty. */
  function LastId(events: seq<StreamEvent>, index: int): Option<string> {
    if events == [] then None
    else
      var e := events[|events| - 1];
      if Touches(e, index) && (if e.ToolPart? then Nonempty(e.callId) else e.callId.Some?) then e.callId
      else LastId(events[..|events| - 1], index)
  }

  /** The pieces of a part's arguments: the last ones that are all text or all dictionaries, since the part last started with any. */
  function ArgPieces(events: seq<StreamEvent>, index: int): seq<Args> {
    if events == [] then []
    else
      var before, e := ArgPieces(events[..|events| - 1], index), events[|events| - 1];
      if !Touches(e, index) || e.args.None? then before
      else if e.ToolPart? || before == [] || before[0].TextArgs? != e.args.value.TextArgs? then [e.args.value]
      else before + [e.args.value]
  }

  function Joined(pieces: seq<Args>): string {
    if pieces == [] then "" else (if pieces[0].TextArgs? then pieces[0].text else "") + Joined(pieces[1..])
  }

  /** All dictionaries in one; for a key that several have the last one counts. */
  function Union(pieces: seq<Args>): Payload {
    if pieces == [] then map[] else (if pieces[0].DictArgs? then pieces[0].dict else map[]) + Union(pieces[1..])
  }

  /** What a stream says about the call of one part, without any record of diagnostics. */
  function Gathered(events: seq<StreamEvent>, index: int): Call {
    var names, pieces := NameFragments(events, index), ArgPieces(events, index);
    Call(if names == [] then None else Some(Concat(names)),
         LastId(events, index),
         if pieces == [] then None
         else if pieces[0].TextArgs? then Some(TextArgs(Joined(pieces)))
         else Some(DictArgs(Union(pieces))),
         false, false)
  }

  predicate HasNameAndId(call: Call) {
    Nonempty(call.toolName) && Nonempty(call.toolCallId)
  }

  /** The arguments are a dictionary, or text that decodes to one once it is stripped. */
  predicate Decodes(setup: Setup, args: Option<Args>) {
    match args
    case None => false
    case Some(DictArgs(_)) => true
    case Some(TextArgs(text)) => Strip(text) != "" && setup.decode(Strip(text)).Some?
  }

  /** At some point of the stream the part had both a name and an id. */
  ghost predicate OnceIdentified(events: seq<StreamEvent>, index: int) {
    exists k :: 0 <= k <= |events| && HasNameAndId(Gathered(events[..k], index))
  }

  /** At some point of the stream, not before it was identified, the part had arguments that parse. */
  ghost predicate OnceComplete(setup: Setup, events: seq<StreamEvent>, index: int) {
    exists k :: 0 <= k <= |events|
      && OnceIdentified(events[..k], index) && Decodes(setup, Gathered(events[..k], index).args)
  }

  /** At some point of the stream the part was identified and its arguments were still open. */
  ghost predicate OnceOpen(setup: Setup, events: seq<StreamEvent>, index: int) {
    exists k :: 0 <= k <= |events| && OnceIdentified(events[..k], index) && !OnceComplete(setup, events[..k], index)
  }

  /** Some tool announced the call. */
  ghost predicate AnnouncedIn(events: seq<StreamEvent>, id: string) {
    exists k :: 0 <= k < |events| && events[k].LifecycleRecorded? && events[k].event.toolCallId == id
  }

  // ------------------------------------------------------------- one event more

  lemma NamesSnoc(events: seq<StreamEvent>, e: StreamEvent, index: int)
    ensures var before, after := Gathered(events, index), Gathered(events + [e], index);
            after.toolName == if Touches(e, index) then Changed(before, e).toolName else before.toolName
  {
    assert (events + [e])[..|events|] == events;
    if Touches(e, index) && Nonempty(e.name) {
      ConcatAppend(NameFragments(events, index), [e.name.value]);
      OneFragment(e.name.value);
    }
  }

  lemma OneFragment(s: string)
    ensures Concat([s]) == s && "" + s == s
  {
    assert Concat([s]) == s + Concat([]);
  }

  lemma IdSnoc(events: seq<StreamEvent>, e: StreamEvent, index: int)
    ensures var before, after := Gathered(events, index), Gathered(events + [e], index);
            after.toolCallId == if Touches(e, index) then Changed(before, e).toolCallId else before.toolCallId
  {
    assert (events + [e])[..|events|] == events;
  }

  lemma {:induction false} JoinedAppend(pieces: seq<Args>, piece: Args)
    requires piece.TextArgs?
    ensures Joined(pieces + [piece]) == Joined(pieces) + piece.text
  {
    if pieces == [] {
      assert [] + [piece] == [piece] && [piece][1..] == [];
    } else {
      assert (pieces + [piece])[0] == pieces[0] && (pieces + [piece])[1..] == pieces[1..] + [piece];
      JoinedAppend(pieces[1..], piece);
    }
  }

  lemma MapsAssociate(a: Payload, b: Payload, c: Payload)
    ensures (a + b) + c == a + (b + c)
  {
  }

  lemma {:induction false} UnionAppend(pieces: seq<Args>, piece: Args)
    requires piece.DictArgs?
    ensures Union(pieces + [piece]) == Union(pieces) + piece.dict
  {
    if pieces == [] {
      assert [] + [piece] == [piece] && [piece][1..] == [];
    } else {
      assert (pieces + [piece])[0] == pieces[0] && (pieces + [piece])[1..] == pieces[1..] + [piece];
      UnionAppend(pieces[1..], piece);
      MapsAssociate(if pieces[0].DictArgs? then pieces[0].dict else map[], Union(pieces[1..]), piece.dict);
    }
  }

  lemma ArgsSnoc(events: seq<StreamEvent>, e: StreamEvent, index: int)
    ensures var before, after := Gathered(events, index), Gathered(events + [e], index);
            after.args == if Touches(e, index) then Changed(before, e).args else before.args
  {
    assert (events + [e])[..|events|] == events;
    var pieces := ArgPieces(events, index);
    if Touches(e, index) && e.args.Some? {
      OnePiece(e.args.value);
      if e.args.value.TextArgs? {
        JoinedAppend(pieces, e.args.value);
      } else {
        UnionAppend(pieces, e.args.value);
      }
    }
  }

  lemma OnePiece(piece: Args)
    ensures if piece.TextArgs? then Joined([piece]) == piece.text else Union([piece]) == piece.dict
  {
    assert [piece][1..] == [];
    if piece.TextArgs? {
      assert Joined([piece]) == piece.text + Joined([]);
    } else {
      assert Union([piece]) == piece.dict + Union([]);
    }
  }

  /** What the stream's own bookkeeping does to a call is what the history says. */
  lemma GatheredSnoc(events: seq<StreamEvent>, e: StreamEvent, index: int)
    ensures Gathered(events + [e], index)
         == if Touches(e, index) then Changed(Gathered(events, index), e) else Gathered(events, index)
  {
    NamesSnoc(events, e, index);
    IdSnoc(events, e, index);
    ArgsSnoc(events, e, index);
  }

  /** All the argument text that a stream states for a part, in order. */
  function AllText(events: seq<StreamEvent>, index: int): string {
    if events == [] then ""
    else
      (if Touches(events[0], index) && events[0].args.Some? && events[0].args.value.TextArgs?
       then events[0].args.value.text else "") + AllText(events[1..], index)
  }

  lemma {:induction false} AllTextAppend(a: seq<StreamEvent>, b: seq<StreamEvent>, index: int)
    ensures AllText(a + b, index) == AllText(a, index) + AllText(b, index)
  {
    if a == [] {
      assert a + b == b;
    } else {
      assert (a + b)[0] == a[0] && (a + b)[1..] == a[1..] + b;
      AllTextAppend(a[1..], b, index);
    }
  }

  /** The call's arguments are all the text there was. */
  predicate AllInText(args: Option<Args>, text: string) {
    match args
    case None => text == ""
    case Some(TextArgs(all)) => all == text
    case Some(DictArgs(_)) => false
  }

  lemma TextStep(call: Call, text: string, e: StreamEvent, index: int)
    requires AllInText(call.args, text) && Touches(e, index) && (e.ToolPart? ==> text == "")
    requires e.args.Some? ==> e.args.value.TextArgs?
    ensures AllInText(Changed(call, e).args, text + if e.args.Some? then e.args.value.text else "")
  {
    if e.args.Some? {
      assert "" + e.args.value.text == e.args.value.text;
    } else {
      assert text + "" == text;
    }
  }

  /** One start of a part and its deltas, arguments in text: the call's text is all of it, in order. */
  lemma {:induction false} StreamedText(events: seq<StreamEvent>, index: int)
    requires forall k :: 0 < k < |events| && Touches(events[k], index) ==> events[k].ToolDelta?
    requires forall k :: 0 <= k < |events| && Touches(events[k], index) && events[k].args.Some? ==> events[k].args.value.TextArgs?
    ensures AllInText(Gathered(events, index).args, AllText(events, index))
  {
    if events != [] {
      var before, e := events[..|events| - 1], events[|events| - 1];
      assert events == before + [e];
      StreamedText(before, index);
      AllTextAppend(before, [e], index);
      OneText(e, index);
      GatheredSnoc(before, e, index);
      if Touches(e, index) {
        assert e.ToolPart? ==> before == [];
        TextStep(Gathered(before, index), AllText(before, index), e, index);
      } else {
        assert AllText(before, index) + "" == AllText(before, index);
      }
    }
  }

  lemma OneText(e: StreamEvent, index: int)
    ensures AllText([e], index)
         == if Touches(e, index) && e.args.Some? && e.args.value.TextArgs? then e.args.value.text else ""
  {
    assert [e][1..] == [] && AllText([], index) == "";
  }

  /** A key's value is that of the last dictionary which has the key. */
  lemma {:induction false} LastWins(pieces: seq<Args>, key: string)
    requires forall k :: 0 <= k < |pieces| ==> pieces[k].DictArgs?
    ensures key in Union(pieces) <==> exists k :: 0 <= k < |pieces| && key in pieces[k].dict
    ensures forall k ::
      (0 <= k < |pieces| && key in pieces[k].dict && forall j :: k < j < |pieces| ==> key !in pieces[j].dict) ==>
        key in Union(pieces) && Union(pieces)[key] == pieces[k].dict[key]
  {
    if pieces != [] {
      var rest := pieces[1..];
      LastWins(rest, key);
      forall k | 0 <= k < |pieces| && key in pieces[k].dict ensures key in Union(pieces) {
        assert k > 0 ==> rest[k - 1] == pieces[k];
      }
      forall k | 0 <= k < |pieces| && key in pieces[k].dict && (forall j :: k < j < |pieces| ==> key !in pieces[j].dict)
        ensures Union(pieces)[key] == pieces[k].dict[key]
      {
        if k > 0 {
          assert rest[k - 1] == pieces[k];
        }
      }
      if key in Union(rest) {
        var k :| 0 <= k < |rest| && key in rest[k].dict;
        assert pieces[k + 1] == rest[k];
      }
    }
  }

  lemma Readings(setup: Setup, call: Call)
    ensures HasNameAndId(call) <==> Identified(call)
    ensures Decodes(setup, call.args) <==> Complete(setup, call.args)
  {
  }

  lemma Prefixes(events: seq<StreamEvent>, e: StreamEvent)
    ensures events[..|events|] == events && (events + [e])[..|events| + 1] == events + [e]
    ensures forall k :: 0 <= k <= |events| ==> (events + [e])[..k] == events[..k]
  {
  }

  /** What some prefix of a longer stream has, some prefix of the stream had already, or the longer stream has. */
  lemma PrefixSnoc(p: seq<StreamEvent> -> bool, events: seq<StreamEvent>, e: StreamEvent)
    ensures (exists k :: 0 <= k <= |events| + 1 && p((events + [e])[..k])) <==>
      (exists k :: 0 <= k <= |events| && p(events[..k])) || p(events + [e])
    ensures p(events) ==> exists k :: 0 <= k <= |events| && p(events[..k])
  {
    Prefixes(events, e);
    if k :| 0 <= k <= |events| + 1 && p((events + [e])[..k]) {
      assert k <= |events| ==> p(events[..k]);
    }
    if k :| 0 <= k <= |events| && p(events[..k]) {
      assert p((events + [e])[..k]);
    }
    assert p(events + [e]) ==> p((events + [e])[..|events| + 1]);
    assert p(events) ==> p(events[..|events|]);
  }

  lemma IdentifiedSnoc(events: seq<StreamEvent>, e: StreamEvent, index: int)
    ensures OnceIdentified(events + [e], index) <==>
      OnceIdentified(events, index) || HasNameAndId(Gathered(events + [e], index))
    ensures HasNameAndId(Gathered(events, index)) ==> OnceIdentified(events, index)
  {
    PrefixSnoc(es => HasNameAndId(Gathered(es, index)), events, e);
  }

  lemma IdentifiedGrows(events: seq<StreamEvent>, k: nat, index: int)
    requires k <= |events| && OnceIdentified(events[..k], index)
    ensures OnceIdentified(events, index)
  {
    var j :| 0 <= j <= k && HasNameAndId(Gathered(events[..k][..j], index));
    assert events[..k][..j] == events[..j];
  }

  lemma CompleteSnoc(setup: Setup, events: seq<StreamEvent>, e: StreamEvent, index: int)
    ensures OnceComplete(setup, events + [e], index) <==>
      || OnceComplete(setup, events, index)
      || (OnceIdentified(events + [e], index) && Decodes(setup, Gathered(events + [e], index).args))
    ensures OnceIdentified(events, index) && Decodes(setup, Gathered(events, index).args) ==>
      OnceComplete(setup, events, index)
  {
    PrefixSnoc(es => OnceIdentified(es, index) && Decodes(setup, Gathered(es, index).args), events, e);
  }

  lemma OpenSnoc(setup: Setup, events: seq<StreamEvent>, e: StreamEvent, index: int)
    ensures OnceOpen(setup, events + [e], index) <==>
      || OnceOpen(setup, events, index)
      || (OnceIdentified(events + [e], index) && !OnceComplete(setup, events + [e], index))
    ensures OnceIdentified(events, index) && !OnceComplete(setup, events, index) ==> OnceOpen(setup, events, index)
    ensures OnceOpen(setup, events, index) ==> OnceIdentified(events, index)
  {
    PrefixSnoc(es => OnceIdentified(es, index) && !OnceComplete(setup, es, index), events, e);
    if OnceOpen(setup, events, index) {
      var k :| 0 <= k <= |events| && OnceIdentified(events[..k], index) && !OnceComplete(setup, events[..k], index);
      IdentifiedGrows(events, k, index);
    }
  }

  // ------------------------------------------------------------ the stream's steps

  function Step(setup: Setup, r: Reaction, e: StreamEvent): Reaction {
    var next := React(setup, r.tracker, e);
    Reaction(next.tracker, r.emissions + next.emissions)
  }

  lemma {:induction false} WatchSnoc(setup: Setup, r: Reaction, events: seq<StreamEvent>, e: StreamEvent)
    ensures Watch(setup, r, events + [e]) == Step(setup, Watch(setup, r, events), e)
    decreases |events|
  {
    if events == [] {
      assert [] + [e] == [e] && [e][1..] == [];
    } else {
      assert (events + [e])[0] == events[0] && (events + [e])[1..] == events[1..] + [e];
      WatchSnoc(setup, Step(setup, r, events[0]), events[1..], e);
    }
  }

  lemma CallAfter(setup: Setup, t: Tracker, e: StreamEvent, index: int)
    ensures var call := Changed(CallAt(t, index), e);
            var observed := call.observed || Identified(call);
            CallAt(React(setup, t, e).tracker, index) ==
              if !Touches(e, index) then CallAt(t, index)
              else call.(observed := observed, completed := call.completed || (observed && Complete(setup, call.args)))
  {
  }

  lemma {:induction false} NotesAppend(a: seq<Emission>, b: seq<Emission>, note: NoteKind, index: int)
    ensures Notes(a + b, note, index) == Notes(a, note, index) + Notes(b, note, index)
    decreases |b|
  {
    if b == [] {
      assert a + b == a;
    } else {
      assert (a + b)[..|a + b| - 1] == a + b[..|b| - 1];
      NotesAppend(a, b[..|b| - 1], note, index);
    }
  }

  lemma {:induction false} NoNotes(es: seq<Emission>, note: NoteKind, index: int)
    requires forall i :: 0 <= i < |es| ==> !IsNote(es[i], note, index)
    ensures Notes(es, note, index) == 0
  {
    if es != [] {
      NoNotes(es[..|es| - 1], note, index);
    }
  }

  /** One event reports no missing execution, and nothing about the parts it does not touch. */
  lemma OtherNotes(setup: Setup, t: Tracker, e: StreamEvent, note: NoteKind, index: int)
    requires note.ExecutionMissing? || !Touches(e, index)
    ensures Notes(React(setup, t, e).emissions, note, index) == 0
  {
    var es := React(setup, t, e).emissions;
    forall i | 0 <= i < |es| ensures !IsNote(es[i], note, index) {
    }
    NoNotes(es, note, index);
  }

  lemma NotesAfter(setup: Setup, t: Tracker, e: StreamEvent, index: int)
    ensures var es, before := React(setup, t, e).emissions, CallAt(t, index);
            var call := Changed(before, e);
            && Notes(es, Observed, index)
               == (if Touches(e, index) && !before.observed && Identified(call) then 1 else 0)
            && Notes(es, ArgumentsCompleted, index)
               == (if Touches(e, index) && before.observed && !before.completed && Complete(setup, call.args) then 1 else 0)
  {
    if Touches(e, index) {
      ReusedIndexUnseen(setup, t, e);
    } else {
      OtherNotes(setup, t, e, Observed, index);
      OtherNotes(setup, t, e, ArgumentsCompleted, index);
    }
  }

  /** One part's record and diagnostics are those of the history. */
  ghost predicate Told(setup: Setup, r: Reaction, events: seq<StreamEvent>, index: int) {
    && CallAt(r.tracker, index) == Gathered(events, index).(observed := OnceIdentified(events, index),
                                                            completed := OnceComplete(setup, events, index))
    && Notes(r.emissions, Observed, index) == (if OnceIdentified(events, index) then 1 else 0)
    && Notes(r.emissions, ArgumentsCompleted, index)
       == (if OnceComplete(setup, events, index) && OnceOpen(setup, events, index) then 1 else 0)
    && Notes(r.emissions, ExecutionMissing, index) == 0
  }

  lemma ChangedFields(call: Call, observed: bool, completed: bool, e: StreamEvent)
    ensures Changed(call.(observed := observed, completed := completed), e)
         == Changed(call, e).(observed := observed, completed := completed)
  {
  }

  /** How one more event changes what the history says. */
  lemma HistorySnoc(setup: Setup, events: seq<StreamEvent>, e: StreamEvent, index: int)
    ensures var call := Gathered(events, index);
            var call' := if Touches(e, index) then Changed(call, e) else call;
            var identified := OnceIdentified(events, index) || (Touches(e, index) && Identified(call'));
            var complete := OnceComplete(setup, events, index)
                            || (Touches(e, index) && identified && Complete(setup, call'.args));
            && Gathered(events + [e], index) == call'
            && (OnceIdentified(events + [e], index) <==> identified)
            && (OnceComplete(setup, events + [e], index) <==> complete)
            && (OnceOpen(setup, events + [e], index) <==> OnceOpen(setup, events, index) || (identified && !complete))
    ensures OnceOpen(setup, events, index) ==> OnceIdentified(events, index)
    ensures OnceIdentified(events, index) && !OnceComplete(setup, events, index) ==> OnceOpen(setup, events, index)
  {
    GatheredSnoc(events, e, index);
    Readings(setup, Gathered(events + [e], index));
    IdentifiedSnoc(events, e, index);
    CompleteSnoc(setup, events, e, index);
    OpenSnoc(setup, events, e, index);
  }

  /** The bookkeeping of one part after one more event, and what that event reports of it. */
  lemma CallStep(setup: Setup, t: Tracker, events: seq<StreamEvent>, e: StreamEvent, index: int)
    requires CallAt(t, index) == Gathered(events, index).(observed := OnceIdentified(events, index),
                                                          completed := OnceComplete(setup, events, index))
    ensures var all := events + [e];
            CallAt(React(setup, t, e).tracker, index) ==
              Gathered(all, index).(observed := OnceIdentified(all, index), completed := OnceComplete(setup, all, index))
  {
    HistorySnoc(setup, events, e, index);
    ChangedFields(Gathered(events, index), OnceIdentified(events, index), OnceComplete(setup, events, index), e);
    CallAfter(setup, t, e, index);
  }

  lemma NotesStep(setup: Setup, t: Tracker, events: seq<StreamEvent>, e: StreamEvent, index: int)
    requires CallAt(t, index) == Gathered(events, index).(observed := OnceIdentified(events, index),
                                                          completed := OnceComplete(setup, events, index))
    ensures var es, all := React(setup, t, e).emissions, events + [e];
            && Notes(es, Observed, index)
               == (if OnceIdentified(all, index) then 1 else 0) - (if OnceIdentified(events, index) then 1 else 0)
            && Notes(es, ArgumentsCompleted, index)
               == (if OnceComplete(setup, all, index) && OnceOpen(setup, all, index) then 1 else 0)
                  - (if OnceComplete(setup, events, index) && OnceOpen(setup, events, index) then 1 else 0)
            && Notes(es, ExecutionMissing, index) == 0
  {
    HistorySnoc(setup, events, e, index);
    ChangedFields(Gathered(events, index), OnceIdentified(events, index), OnceComplete(setup, events, index), e);
    NotesAfter(setup, t, e, index);
    OtherNotes(setup, t, e, ExecutionMissing, index);
  }

  lemma ToldStep(setup: Setup, r: Reaction, events: seq<StreamEvent>, e: StreamEvent, index: int)
    requires Told(setup, r, events, index)
    ensures Told(setup, Step(setup, r, e), events + [e], index)
  {
    CallStep(setup, r.tracker, events, e, index);
    NotesStep(setup, r.tracker, events, e, index);
    var es := React(setup, r.tracker, e).emissions;
    NotesAppend(r.emissions, es, Observed, index);
    NotesAppend(r.emissions, es, ArgumentsCompleted, index);
    NotesAppend(r.emissions, es, ExecutionMissing, index);
  }

  lemma {:induction false} Watched(setup: Setup, events: seq<StreamEvent>, index: int)
    ensures Told(setup, Watch(setup, Reaction(NO_CALLS, []), events), events, index)
    decreases |events|
  {
    if events == [] {
      assert events[..0] == [];
      assert !OnceIdentified(events, index) by {
        forall k | 0 <= k <= |events| ensures !HasNameAndId(Gathered(events[..k], index)) {
          assert events[..k] == [];
        }
      }
    } else {
      var before, e := events[..|events| - 1], events[|events| - 1];
      assert events == before + [e];
      Watched(setup, before, index);
      WatchSnoc(setup, Reaction(NO_CALLS, []), before, e);
      ToldStep(setup, Watch(setup, Reaction(NO_CALLS, []), before), before, e, index);
    }
  }

  // --------------------------------------------------------------- announcements

  lemma {:induction false} AnnouncedIds(setup: Setup, r: Reaction, events: seq<StreamEvent>, id: string)
    ensures id in Watch(setup, r, events).tracker.announced <==> id in r.tracker.announced || AnnouncedIn(events, id)
    decreases |events|
  {
    if events != [] {
      AnnouncedIds(setup, Step(setup, r, events[0]), events[1..], id);
      AnnouncedCons(events, id);
    }
  }

  lemma AnnouncedCons(events: seq<StreamEvent>, id: string)
    requires events != []
    ensures AnnouncedIn(events, id) <==>
      (events[0].LifecycleRecorded? && events[0].event.toolCallId == id) || AnnouncedIn(events[1..], id)
  {
    if AnnouncedIn(events[1..], id) {
      var k :| 0 <= k < |events[1..]| && events[1..][k].LifecycleRecorded? && events[1..][k].event.toolCallId == id;
      assert events[k + 1] == events[1..][k];
    }
    if AnnouncedIn(events, id) {
      var k :| 0 <= k < |events| && events[k].LifecycleRecorded? && events[k].event.toolCallId == id;
      if k > 0 {
        assert events[1..][k - 1] == events[k];
      }
    }
  }

  // ------------------------------------------------------------- the final check

  predicate Distinct(s: seq<int>) {
    forall i, j :: 0 <= i < j < |s| ==> s[i] != s[j]
  }

  /** Every part is listed once. */
  ghost predicate OrderOk(t: Tracker) {
    Distinct(t.order) && forall i :: i in t.order <==> i in t.calls
  }

  lemma StoreOrder(t: Tracker, index: int, call: Call)
    requires OrderOk(t)
    ensures OrderOk(Store(t, index, call))
  {
  }

  lemma StepOrder(setup: Setup, t: Tracker, e: StreamEvent)
    requires OrderOk(t)
    ensures OrderOk(React(setup, t, e).tracker)
  {
    if e.ToolPart? || e.ToolDelta? {
      StoreOrder(t, e.index, CallAt(React(setup, t, e).tracker, e.index));
    }
  }

  lemma {:induction false} WatchOrder(setup: Setup, r: Reaction, events: seq<StreamEvent>)
    requires OrderOk(r.tracker)
    ensures OrderOk(Watch(setup, r, events).tracker)
    decreases |events|
  {
    if events != [] {
      StepOrder(setup, r.tracker, events[0]);
      WatchOrder(setup, Step(setup, r, events[0]), events[1..]);
    }
  }

  lemma {:induction false} PendingOnce(t: Tracker, order: seq<int>)
    requires Distinct(order)
    ensures Distinct(PendingCalls(t, order))
  {
    if order != [] {
      PendingOnce(t, order[1..]);
      PendingListed(t, order[1..]);
    }
  }

  /** The report that one call was not executed. */
  function Failure(setup: Setup, t: Tracker, index: int): seq<Emission> {
    if index !in t.calls || t.calls[index].toolCallId.None? then []
    else [Note(ExecutionMissing, index, t.calls[index]), Announce(FailureOf(setup, t.calls[index])), Flush]
  }

  function InOrderOf(parts: int -> seq<Emission>, indices: seq<int>): seq<Emission> {
    if indices == [] then [] else parts(indices[0]) + InOrderOf(parts, indices[1..])
  }

  function Failures(setup: Setup, t: Tracker, pending: seq<int>): seq<Emission> {
    InOrderOf(i => Failure(setup, t, i), pending)
  }

  lemma FailOneExact(setup: Setup, r: Reaction, index: int)
    ensures FailOne(setup, r, index).emissions == r.emissions + Failure(setup, r.tracker, index)
    ensures FailOne(setup, r, index).tracker.calls == r.tracker.calls
  {
    if Failure(setup, r.tracker, index) == [] {
      assert r.emissions + [] == r.emissions;
    }
  }

  lemma FailuresByCalls(setup: Setup, t: Tracker, u: Tracker, i: int)
    requires t.calls == u.calls
    ensures Failure(setup, t, i) == Failure(setup, u, i)
  {
  }

  /** Failing the pending calls one by one appends their reports. */
  lemma {:induction false} FailAllJoins(setup: Setup, r: Reaction, pending: seq<int>, parts: int -> seq<Emission>)
    requires forall u: Tracker, i {:trigger Failure(setup, u, i)} :: u.calls == r.tracker.calls ==> Failure(setup, u, i) == parts(i)
    ensures FailAll(setup, r, pending).emissions == r.emissions + InOrderOf(parts, pending)
    decreases |pending|
  {
    if pending == [] {
      assert r.emissions + [] == r.emissions;
    } else {
      var next := FailOne(setup, r, pending[0]);
      FailOneExact(setup, r, pending[0]);
      FailAllJoins(setup, next, pending[1..], parts);
      ConcatAssociates(r.emissions, parts(pending[0]), InOrderOf(parts, pending[1..]));
    }
  }

  lemma ConcatAssociates(a: seq<Emission>, b: seq<Emission>, c: seq<Emission>)
    ensures (a + b) + c == a + (b + c)
  {
  }

  /** What the final check adds: for each pending call, in order, a diagnostic, a failed tool event and a flush. */
  lemma FinalCheckExact(setup: Setup, r: Reaction)
    ensures FinalCheck(setup, r).emissions == r.emissions + Failures(setup, r.tracker, PendingCalls(r.tracker, r.tracker.order))
  {
    forall u: Tracker, i | u.calls == r.tracker.calls ensures Failure(setup, u, i) == Failure(setup, r.tracker, i) {
      FailuresByCalls(setup, u, r.tracker, i);
    }
    FailAllJoins(setup, r, PendingCalls(r.tracker, r.tracker.order), i => Failure(setup, r.tracker, i));
  }

  lemma FailureShape(setup: Setup, t: Tracker, i: int) returns (event: ToolEvent)
    requires i in t.calls && t.calls[i].toolCallId.Some?
    ensures Failure(setup, t, i) == [Note(ExecutionMissing, i, t.calls[i]), Announce(event), Flush]
  {
    event := FailureOf(setup, t.calls[i]);
  }

  lemma ReportNotes(es: seq<Emission>, report: Emission, event: ToolEvent, note: NoteKind, index: int)
    requires es == [report, Announce(event), Flush]
    ensures Notes(es, note, index) == if IsNote(report, note, index) then 1 else 0
  {
    assert es == [report] + [Announce(event), Flush];
    NotesAppend([report], [Announce(event), Flush], note, index);
    NoNotes([Announce(event), Flush], note, index);
    assert [report][..0] == [] && Notes([], note, index) == 0;
  }

  lemma FailureNotes(setup: Setup, t: Tracker, i: int, note: NoteKind, index: int)
    ensures Notes(Failure(setup, t, i), note, index) ==
      if note.ExecutionMissing? && i == index && i in t.calls && t.calls[i].toolCallId.Some? then 1 else 0
  {
    if i in t.calls && t.calls[i].toolCallId.Some? {
      var event := FailureShape(setup, t, i);
      ReportNotes(Failure(setup, t, i), Note(ExecutionMissing, i, t.calls[i]), event, note, index);
    } else {
      assert Failure(setup, t, i) == [];
    }
  }

  lemma {:induction false} JoinedNotes(parts: int -> seq<Emission>, indices: seq<int>, note: NoteKind, index: int, reported: bool)
    requires Distinct(indices)
    requires forall i :: Notes(parts(i), note, index) == if reported && i == index then 1 else 0
    ensures Notes(InOrderOf(parts, indices), note, index) == if reported && index in indices then 1 else 0
  {
    if indices != [] {
      JoinedNotes(parts, indices[1..], note, index, reported);
      NotesAppend(parts(indices[0]), InOrderOf(parts, indices[1..]), note, index);
      assert index in indices <==> index == indices[0] || index in indices[1..];
    }
  }

  lemma FailuresNotes(setup: Setup, t: Tracker, pending: seq<int>, note: NoteKind, index: int)
    requires Distinct(pending)
    ensures Notes(Failures(setup, t, pending), note, index) ==
      if note.ExecutionMissing? && index in pending && index in t.calls && t.calls[index].toolCallId.Some? then 1 else 0
  {
    forall i
      ensures Notes(Failure(setup, t, i), note, index) ==
        if note.ExecutionMissing? && i == index && i in t.calls && t.calls[i].toolCallId.Some? then 1 else 0
    {
      FailureNotes(setup, t, i, note, index);
    }
    JoinedNotes(i => Failure(setup, t, i), pending, note, index,
                note.ExecutionMissing? && index in t.calls && t.calls[index].toolCallId.Some?);
  }

  lemma CheckNotes(setup: Setup, r: Reaction, note: NoteKind, index: int)
    requires OrderOk(r.tracker)
    ensures Notes(FinalCheck(setup, r).emissions, note, index) ==
      Notes(r.emissions, note, index) + if note.ExecutionMissing? && LeftUnexecuted(r.tracker, index) then 1 else 0
  {
    var pending := PendingCalls(r.tracker, r.tracker.order);
    PendingListed(r.tracker, r.tracker.order);
    PendingOnce(r.tracker, r.tracker.order);
    FinalCheckExact(setup, r);
    FailuresNotes(setup, r.tracker, pending, note, index);
    NotesAppend(r.emissions, Failures(setup, r.tracker, pending), note, index);
  }

  /**
   Every diagnostic of a run, from its events alone. A part is observed if it was identified at some
   point; its arguments are completed later if they parsed only after that; and after a successful run
   it is reported unexecuted, once, if its arguments were completed and its last id was never announced.
   */
  lemma ReportedExactly(setup: Setup, events: seq<StreamEvent>, end: AgentEnd, index: int)
    ensures var es, id := Whole(setup, events, end).emissions, LastId(events, index);
            && Notes(es, Observed, index) == (if OnceIdentified(events, index) then 1 else 0)
            && Notes(es, ArgumentsCompleted, index)
               == (if OnceComplete(setup, events, index) && OnceOpen(setup, events, index) then 1 else 0)
            && Notes(es, ExecutionMissing, index)
               == (if Verdict(end).Ok? && OnceComplete(setup, events, index) && id.Some? && !AnnouncedIn(events, id.value)
                   then 1 else 0)
  {
    var start := Reaction(NO_CALLS, []);
    var r := Watch(setup, start, events);
    Watched(setup, events, index);
    WatchOrder(setup, start, events);
    CheckNotes(setup, r, Observed, index);
    CheckNotes(setup, r, ArgumentsCompleted, index);
    CheckNotes(setup, r, ExecutionMissing, index);
    var id := LastId(events, index);
    if id.Some? {
      AnnouncedIds(setup, start, events, id.value);
    }
  }

  // -------------------------------------------------------------------- witnesses

  /** A complete call in one event. */
  function Started(index: int, name: string, id: string): StreamEvent {
    ToolPart(index, Some(name), Some(id), Some(DictArgs(map[])))
  }

  lemma StartedComplete(setup: Setup, events: seq<StreamEvent>, k: nat, index: int, name: string, id: string)
    requires k < |events| && events[k] == Started(index, name, id) && name != "" && id != ""
    ensures OnceIdentified(events, index) && OnceComplete(setup, events, index)
  {
    var upto := events[..k + 1];
    assert upto[..k] == events[..k] && upto[..k + 1] == upto;
    assert Touches(events[k], index);
    assert HasNameAndId(Gathered(upto, index));
    assert OnceIdentified(upto, index);
  }

  lemma {:induction false} LastStarted(events: seq<StreamEvent>, k: nat, index: int, id: string)
    requires k < |events| && events[k].ToolPart? && events[k].index == index && events[k].callId == Some(id) && id != ""
    requires forall j :: k < j < |events| ==> !Touches(events[j], index)
    ensures LastId(events, index) == Some(id)
    decreases |events|
  {
    if k < |events| - 1 {
      LastStarted(events[..|events| - 1], k, index, id);
    }
  }

  lemma Untouched(events: seq<StreamEvent>, index: int)
    requires forall k :: 0 <= k < |events| ==> !Touches(events[k], index)
    ensures Gathered(events, index) == UNKNOWN
  {
    if events != [] {
      Untouched(events[..|events| - 1], index);
    }
  }

  lemma NeverIdentified(setup: Setup, events: seq<StreamEvent>, index: int)
    requires forall k :: 0 <= k < |events| ==> !Touches(events[k], index)
    ensures !OnceIdentified(events, index) && !OnceComplete(setup, events, index)
  {
    forall k | 0 <= k <= |events| ensures !HasNameAndId(Gathered(events[..k], index)) {
      Untouched(events[..k], index);
    }
    forall k | 0 <= k <= |events| ensures !OnceIdentified(events[..k], index) {
      forall j | 0 <= j <= k ensures !HasNameAndId(Gathered(events[..k][..j], index)) {
        assert events[..k][..j] == events[..j];
      }
    }
  }

  lemma OtherIndices(setup: Setup, events: seq<StreamEvent>, end: AgentEnd, index: int)
    requires forall k :: 0 <= k < |events| ==> !Touches(events[k], index)
    ensures Notes(Whole(setup, events, end).emissions, ExecutionMissing, index) == 0
  {
    ReportedExactly(setup, events, end, index);
    NeverIdentified(setup, events, index);
  }

  lemma ObservedOnce(setup: Setup, events: seq<StreamEvent>, end: AgentEnd, index: int)
    requires OnceIdentified(events, index)
    ensures Notes(Whole(setup, events, end).emissions, Observed, index) == 1
  {
    ReportedExactly(setup, events, end, index);
  }

  /** Of all calls at an index only the id of the last one counts. */
  lemma FailedByLastId(setup: Setup, events: seq<StreamEvent>, end: AgentEnd, index: int, id: string)
    requires LastId(events, index) == Some(id) && OnceComplete(setup, events, index) && Verdict(end).Ok?
    ensures Notes(Whole(setup, events, end).emissions, ExecutionMissing, index) == if AnnouncedIn(events, id) then 0 else 1
  {
    ReportedExactly(setup, events, end, index);
  }

  /** The part 0 is the only one, and its call was announced. */
  lemma NothingReported(setup: Setup, events: seq<StreamEvent>, end: AgentEnd, id: string)
    requires forall k :: 0 <= k < |events| && (events[k].ToolPart? || events[k].ToolDelta?) ==> events[k].index == 0
    requires LastId(events, 0) == Some(id) && AnnouncedIn(events, id)
    ensures forall i :: Notes(Whole(setup, events, end).emissions, ExecutionMissing, i) == 0
  {
    forall i ensures Notes(Whole(setup, events, end).emissions, ExecutionMissing, i) == 0 {
      if i == 0 {
        ReportedExactly(setup, events, end, 0);
      } else {
        OtherIndices(setup, events, end, i);
      }
    }
  }

  lemma OnlyLastAnnounces(events: seq<StreamEvent>, id: string)
    requires |events| == 3 && events[0].ToolPart? && events[1].ToolPart? && events[2].LifecycleRecorded?
    ensures AnnouncedIn(events, id) <==> events[2].event.toolCallId == id
  {
  }

  /** One observation, and no call reported unexecuted. */
  ghost predicate Quiet(es: seq<Emission>) {
    Notes(es, Observed, 0) == 1 && forall i :: Notes(es, ExecutionMissing, i) == 0
  }

  /** All parts are at index 0, and the last call there, complete in one event, is announced. */
  lemma AnnouncedIsQuiet(setup: Setup, events: seq<StreamEvent>, end: AgentEnd, k: nat, name: string, id: string)
    requires forall j :: 0 <= j < |events| && (events[j].ToolPart? || events[j].ToolDelta?) ==> events[j].index == 0
    requires k < |events| && events[k] == Started(0, name, id) && name != "" && id != ""
    requires forall j :: k < j < |events| ==> !Touches(events[j], 0)
    requires AnnouncedIn(events, id)
    ensures Quiet(Whole(setup, events, end).emissions)
  {
    StartedComplete(setup, events, k, 0, name, id);
    LastStarted(events, k, 0, id);
    ObservedOnce(setup, events, end, 0);
    NothingReported(setup, events, end, id);
  }

  lemma FirstOfTwo(setup: Setup, events: seq<StreamEvent>, name: string, id: string)
    requires events != [] && events[0] == Started(0, name, id) && name != "" && id != ""
    ensures LastId(events[..1], 0) == Some(id) && OnceComplete(setup, events[..1], 0)
  {
    LastStarted(events[..1], 0, 0, id);
    StartedComplete(setup, events[..1], 0, 0, name, id);
  }

  /**
   Two calls of successive model responses share a part index, and only the second one is executed:
   the first is never reported unexecuted, although it was complete and no tool announced it.
   */
  lemma OverwrittenCallForgotten(
    setup: Setup, events: seq<StreamEvent>, end: AgentEnd, name: string, first: string, second: string, done: ToolEvent)
    requires name != "" && first != "" && second != "" && first != second && done.toolCallId == second
    requires |events| == 3 && events[0] == Started(0, name, first) && events[1] == Started(0, name, second)
    requires events[2] == LifecycleRecorded(done)
    ensures LastId(events[..1], 0) == Some(first) && OnceComplete(setup, events[..1], 0) && !AnnouncedIn(events, first)
    ensures Quiet(Whole(setup, events, end).emissions)
  {
    OnlyLastAnnounces(events, first);
    OnlyLastAnnounces(events, second);
    AnnouncedIsQuiet(setup, events, end, 1, name, second);
    FirstOfTwo(setup, events, name, first);
  }

  /** A call that is complete in one event, at an index nothing touches again, and that no tool announces. */
  lemma UnannouncedFails(
    setup: Setup, events: seq<StreamEvent>, k: nat, index: int, name: string, id: string, output: string)
    requires name != "" && id != "" && Strip(output) != "" && !AnnouncedIn(events, id)
    requires k < |events| && events[k] == Started(index, name, id)
    requires forall j :: k < j < |events| ==> !Touches(events[j], index)
    ensures Notes(Whole(setup, events, Finished(Some(output))).emissions, ExecutionMissing, index) == 1
    ensures LastId(events, index) == Some(id)
  {
    StartedComplete(setup, events, k, index, name, id);
    LastStarted(events, k, index, id);
    FailedByLastId(setup, events, Finished(Some(output)), index, id);
  }

  /** Two parts with one id that no tool announced: the id is failed twice. */
  lemma SharedIdFailsTwice(setup: Setup, events: seq<StreamEvent>, name: string, id: string, output: string)
    requires name != "" && id != "" && Strip(output) != ""
    requires |events| == 2 && events[0] == Started(0, name, id) && events[1] == Started(1, name, id)
    ensures var es := Whole(setup, events, Finished(Some(output))).emissions;
            Notes(es, ExecutionMissing, 0) == 1 && Notes(es, ExecutionMissing, 1) == 1
    ensures LastId(events, 0) == Some(id) && LastId(events, 1) == Some(id)
  {
    UnannouncedFails(setup, events, 0, 0, name, id, output);
    UnannouncedFails(setup, events, 1, 1, name, id, output);
  }
}
