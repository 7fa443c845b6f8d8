/**
 The timeline table: upsert, delete, and the diff-based sync of one source's events.

 Rows stand in the order of their ids, which are handed out by a counter that never goes back.
 A sync is one transaction: it either commits as a whole or leaves the table as it was.
 */
module Timeline {
  import opened Common

  type SourceId = Option<string>

  datatype Content = Content(
    title: string,
    description: Option<string>,
    startTime: string,
    endTime: Option<string>,
    isAllDay: bool,
    location: Option<string>,
    status: string,
    metadata: Option<string>)

  datatype Row = Row(
    id: nat, source: string, sourceId: SourceId, content: Content, progress: real, createdAt: int, updatedAt: int)

  /**
   One incoming event. `id` is absent when the key is missing; a title, start time or status of
   `None` is one that the table refuses, or a start time that is missing.
   */
  datatype Event = Event(
    id: Option<SourceId>,
    title: Option<string>,
    startTime: Option<string>,
    status: Option<string>,
    description: Option<string>,
    endTime: Option<string>,
    isAllDay: bool,
    location: Option<string>,
    metadata: Option<string>)

  datatype Stats = Stats(inserted: nat, updated: nat, deleted: nat)

  datatype TableError = IdMissing | NotStorable

  datatype Db = Db(rows: seq<Row>, nextId: nat)

  /** Ids are distinct, ascending, and below the counter. */
  ghost predicate DbOk(db: Db) {
    IdsBelow(db.rows, db.nextId) && Ascending(db.rows)
  }

  predicate IdsBelow(rows: seq<Row>, n: nat) {
    forall i :: 0 <= i < |rows| ==> rows[i].id < n
  }

  ghost predicate Ascending(rows: seq<Row>) {
    forall i, j :: 0 <= i < j < |rows| ==> rows[i].id < rows[j].id
  }

  // ----------------------------------------------------------- specification

  predicate Storable(e: Event) {
    e.title.Some? && e.startTime.Some? && e.status.Some?
  }

  predicate Acceptable(e: Event) {
    e.id.Some? && Storable(e)
  }

  function ContentOf(e: Event): Content
    requires Storable(e)
  {
    Content(e.title.value, e.description, e.startTime.value, e.endTime, e.isAllDay, e.location, e.status.value, e.metadata)
  }

  /** The id known for each source id of a source; of several rows the last one counts. */
  function Lookup(rows: seq<Row>, source: string): map<SourceId, nat> {
    if rows == [] then map[]
    else
      var known, last := Lookup(rows[..|rows| - 1], source), rows[|rows| - 1];
      if last.source == source then known[last.sourceId := last.id] else known
  }

  function Change(row: Row, id: nat, content: Content, now: int): Row {
    if row.id == id then row.(content := content, updatedAt := now) else row
  }

  function ChangeAll(rows: seq<Row>, id: nat, content: Content, now: int): seq<Row> {
    seq(|rows|, i requires 0 <= i < |rows| => Change(rows[i], id, content, now))
  }

  function Insert(db: Db, source: string, sourceId: SourceId, content: Content, progress: real, now: int): Db {
    Db(db.rows + [Row(db.nextId, source, sourceId, content, progress, now, now)], db.nextId + 1)
  }

  function ApplyEvent(db: Db, known: map<SourceId, nat>, source: string, e: Event, now: int): Db
    requires Acceptable(e)
  {
    if e.id.value in known then db.(rows := ChangeAll(db.rows, known[e.id.value], ContentOf(e), now))
    else Insert(db, source, e.id.value, ContentOf(e), 0.0, now)
  }

  predicate AllAcceptable(events: seq<Event>) {
    forall i :: 0 <= i < |events| ==> Acceptable(events[i])
  }

  function ApplyAll(db: Db, known: map<SourceId, nat>, source: string, events: seq<Event>, now: int): Db
    requires AllAcceptable(events)
  {
    if events == [] then db
    else ApplyEvent(ApplyAll(db, known, source, events[..|events| - 1], now), known, source, events[|events| - 1], now)
  }

  function Without(rows: seq<Row>, ids: set<nat>): seq<Row> {
    if rows == [] then []
    else Without(rows[..|rows| - 1], ids) + if rows[|rows| - 1].id in ids then [] else [rows[|rows| - 1]]
  }

  function IncomingIds(events: seq<Event>): set<SourceId>
    requires AllAcceptable(events)
  {
    set i | 0 <= i < |events| :: events[i].id.value
  }

  function Known(known: map<SourceId, nat>, events: seq<Event>): nat
    requires AllAcceptable(events)
  {
    if events == [] then 0
    else Known(known, events[..|events| - 1]) + if events[|events| - 1].id.value in known then 1 else 0
  }

  function Unknown(known: map<SourceId, nat>, events: seq<Event>): nat
    requires AllAcceptable(events)
  {
    if events == [] then 0
    else Unknown(known, events[..|events| - 1]) + if events[|events| - 1].id.value in known then 0 else 1
  }

  function IdsOf(known: map<SourceId, nat>, keys: set<SourceId>): set<nat>
    requires keys <= known.Keys
  {
    set k | k in keys :: known[k]
  }

  function Synced(db: Db, source: string, events: seq<Event>, now: int): (Db, Stats)
    requires AllAcceptable(events)
  {
    var known := Lookup(db.rows, source);
    var applied := ApplyAll(db, known, source, events, now);
    var absent := known.Keys - IncomingIds(events);
    (Db(Without(applied.rows, IdsOf(known, absent)), applied.nextId),
     Stats(Unknown(known, events), Known(known, events), |absent|))
  }

  // -------------------------------------------------- the applied table, closed

  /** A row after all events: the last event that addresses it decides its content. */
  function Refreshed(row: Row, known: map<SourceId, nat>, events: seq<Event>, now: int): Row
    requires AllAcceptable(events)
  {
    if events == [] then row
    else
      var e := events[|events| - 1];
      if e.id.value in known && known[e.id.value] == row.id then row.(content := ContentOf(e), updatedAt := now)
      else Refreshed(row, known, events[..|events| - 1], now)
  }

  /** The rows of the events that address no row. */
  function NewRows(
    nextId: nat, known: map<SourceId, nat>, source: string, events: seq<Event>, now: int): seq<Row>
    requires AllAcceptable(events)
  {
    if events == [] then []
    else
      var before := NewRows(nextId, known, source, events[..|events| - 1], now);
      var e := events[|events| - 1];
      if e.id.value in known then before
      else before + [Row(nextId + |before|, source, e.id.value, ContentOf(e), 0.0, now, now)]
  }

  function RefreshedAll(rows: seq<Row>, known: map<SourceId, nat>, events: seq<Event>, now: int): seq<Row>
    requires AllAcceptable(events)
  {
    seq(|rows|, i requires 0 <= i < |rows| => Refreshed(rows[i], known, events, now))
  }

  lemma {:induction false} NewRowsCounted(
    nextId: nat, known: map<SourceId, nat>, source: string, events: seq<Event>, now: int)
    requires AllAcceptable(events)
    ensures var added := NewRows(nextId, known, source, events, now);
            && |added| == Unknown(known, events) && |added| + Known(known, events) == |events|
            && forall i :: 0 <= i < |added| ==>
                 && added[i].id == nextId + i && added[i].source == source && added[i].sourceId !in known
                 && added[i].progress == 0.0
  {
    if events != [] {
      NewRowsCounted(nextId, known, source, events[..|events| - 1], now);
    }
  }

  lemma {:induction false} RefreshedKeeps(row: Row, known: map<SourceId, nat>, events: seq<Event>, now: int)
    requires AllAcceptable(events)
    ensures var r := Refreshed(row, known, events, now);
            r == row.(content := r.content, updatedAt := r.updatedAt)
  {
    if events != [] {
      RefreshedKeeps(row, known, events[..|events| - 1], now);
    }
  }

  /** Updates touch only rows that were there, so they and the insertions can be told apart. */
  lemma {:induction false} ApplyAllClosed(db: Db, known: map<SourceId, nat>, source: string, events: seq<Event>, now: int)
    requires AllAcceptable(events) && forall k :: k in known ==> known[k] < db.nextId
    ensures var applied, added := ApplyAll(db, known, source, events, now), NewRows(db.nextId, known, source, events, now);
            && applied.rows == RefreshedAll(db.rows, known, events, now) + added
            && applied.nextId == db.nextId + |added|
  {
    if events == [] {
      assert RefreshedAll(db.rows, known, events, now) == db.rows;
    } else {
      var before, e := events[..|events| - 1], events[|events| - 1];
      ApplyAllClosed(db, known, source, before, now);
      NewRowsCounted(db.nextId, known, source, before, now);
      var kept, earlier := RefreshedAll(db.rows, known, before, now), NewRows(db.nextId, known, source, before, now);
      if e.id.value in known {
        ChangeAllParts(kept, earlier, known[e.id.value], ContentOf(e), now);
        forall i | 0 <= i < |db.rows|
          ensures Change(kept[i], known[e.id.value], ContentOf(e), now) == Refreshed(db.rows[i], known, events, now)
        {
          RefreshedKeeps(db.rows[i], known, before, now);
        }
      }
    }
  }

  lemma ChangeAllParts(a: seq<Row>, b: seq<Row>, id: nat, content: Content, now: int)
    requires forall i :: 0 <= i < |b| ==> b[i].id != id
    ensures ChangeAll(a + b, id, content, now) == ChangeAll(a, id, content, now) + b
  {
  }

  // ------------------------------------------------------------ known rows

  /** A row of the source for each known id, and a known id for each of its rows. */
  ghost predicate Indexes(known: map<SourceId, nat>, rows: seq<Row>, source: string) {
    && (forall r :: r in rows && r.source == source ==> r.sourceId in known)
    && (forall k :: k in known ==> exists r :: r in rows && r.source == source && r.sourceId == k && r.id == known[k])
  }

  lemma {:induction false} LookupIndexes(rows: seq<Row>, source: string)
    ensures Indexes(Lookup(rows, source), rows, source)
  {
    if rows != [] {
      var before, last := rows[..|rows| - 1], rows[|rows| - 1];
      LookupIndexes(before, source);
      assert rows == before + [last];
      var known := Lookup(rows, source);
      forall k | k in known ensures exists r :: r in rows && r.source == source && r.sourceId == k && r.id == known[k] {
        if last.source == source && k == last.sourceId {
          assert last in rows;
        } else {
          var r :| r in before && r.source == source && r.sourceId == k && r.id == known[k];
          assert r in rows;
        }
      }
    }
  }

  /** Rows are told apart by their ids. */
  ghost predicate Distinct(rows: seq<Row>) {
    forall r, q :: r in rows && q in rows && r.id == q.id ==> r == q
  }

  lemma DbDistinct(db: Db)
    requires DbOk(db)
    ensures Distinct(db.rows)
  {
  }

  /** No known id is that of two source ids, and none belongs to another source. */
  lemma KnownInjective(known: map<SourceId, nat>, rows: seq<Row>, source: string)
    requires Indexes(known, rows, source) && Distinct(rows)
    ensures forall j, k :: j in known && k in known && known[j] == known[k] ==> j == k
    ensures forall r, k :: r in rows && k in known && known[k] == r.id ==> r.source == source && r.sourceId == k
  {
  }

  lemma {:induction false} WithoutMembers(rows: seq<Row>, ids: set<nat>)
    ensures forall r :: r in Without(rows, ids) <==> r in rows && r.id !in ids
  {
    if rows != [] {
      WithoutMembers(rows[..|rows| - 1], ids);
      assert rows == rows[..|rows| - 1] + [rows[|rows| - 1]];
    }
  }

  lemma {:induction false} WithoutNothing(rows: seq<Row>, ids: set<nat>)
    requires forall r :: r in rows ==> r.id !in ids
    ensures Without(rows, ids) == rows
  {
    if rows != [] {
      var init, last := rows[..|rows| - 1], rows[|rows| - 1];
      forall r | r in init ensures r.id !in ids {
        assert r in rows;
      }
      WithoutNothing(init, ids);
      assert last.id !in ids && rows == init + [last];
    }
  }

  lemma {:induction false} WithoutAppend(a: seq<Row>, b: seq<Row>, ids: set<nat>)
    ensures Without(a + b, ids) == Without(a, ids) + Without(b, ids)
  {
    if b == [] {
      assert a + b == a;
    } else {
      assert (a + b)[..|a + b| - 1] == a + b[..|b| - 1];
      WithoutAppend(a, b[..|b| - 1], ids);
    }
  }

  lemma {:induction false} WithoutAscends(rows: seq<Row>, ids: set<nat>)
    requires Ascending(rows)
    ensures Ascending(Without(rows, ids))
  {
    if rows != [] {
      var before, last := rows[..|rows| - 1], rows[|rows| - 1];
      var kept := Without(before, ids);
      WithoutAscends(before, ids);
      WithoutMembers(before, ids);
      forall i | 0 <= i < |kept| ensures kept[i].id < last.id {
        assert kept[i] in before;
      }
      assert Without(rows, ids) == kept || Without(rows, ids) == kept + [last];
    }
  }

  lemma LastIsNew(rows: seq<Row>)
    requires Ascending(rows) && rows != []
    ensures forall r :: r in rows[..|rows| - 1] ==> r.id != rows[|rows| - 1].id
    ensures Ascending(rows[..|rows| - 1])
  {
    forall r | r in rows[..|rows| - 1] ensures r.id != rows[|rows| - 1].id {
      var i :| 0 <= i < |rows| - 1 && rows[..|rows| - 1][i] == r;
      assert rows[i].id < rows[|rows| - 1].id;
    }
  }

  /** Each of the ids is that of some row. */
  ghost predicate Occur(ids: set<nat>, rows: seq<Row>) {
    forall id :: id in ids ==> exists r :: r in rows && r.id == id
  }

  lemma OccurBefore(ids: set<nat>, rows: seq<Row>)
    requires rows != [] && Occur(ids, rows)
    ensures Occur(ids - {rows[|rows| - 1].id}, rows[..|rows| - 1])
  {
    var before, last := rows[..|rows| - 1], rows[|rows| - 1];
    assert rows == before + [last];
    forall id | id in ids - {last.id} ensures exists r :: r in before && r.id == id {
      var r :| r in rows && r.id == id;
      assert r in before;
    }
  }

  lemma RemovedOne(ids: set<nat>, id: nat)
    ensures |ids| == |ids - {id}| + if id in ids then 1 else 0
  {
    if id in ids {
      assert ids == (ids - {id}) + {id};
    } else {
      assert ids == ids - {id};
    }
  }

  /** Each dropped id takes exactly one row away. */
  lemma {:induction false} WithoutCount(rows: seq<Row>, ids: set<nat>)
    requires Ascending(rows) && Occur(ids, rows)
    ensures |Without(rows, ids)| + |ids| == |rows|
  {
    if rows != [] {
      var before, last := rows[..|rows| - 1], rows[|rows| - 1];
      LastIsNew(rows);
      OccurBefore(ids, rows);
      WithoutCount(before, ids - {last.id});
      SameKept(before, ids, ids - {last.id});
      RemovedOne(ids, last.id);
    } else {
      assert ids == {};
    }
  }

  lemma {:induction false} SameKept(rows: seq<Row>, a: set<nat>, b: set<nat>)
    requires forall r :: r in rows ==> (r.id in a <==> r.id in b)
    ensures Without(rows, a) == Without(rows, b)
  {
    if rows != [] {
      SameKept(rows[..|rows| - 1], a, b);
    }
  }

  lemma {:induction false} IdsOfCount(known: map<SourceId, nat>, keys: set<SourceId>)
    requires keys <= known.Keys
    requires forall j, k :: j in known && k in known && known[j] == known[k] ==> j == k
    ensures |IdsOf(known, keys)| == |keys|
    decreases |keys|
  {
    if keys == {} {
      assert IdsOf(known, keys) == {};
    } else {
      var k :| k in keys;
      IdsOfCount(known, keys - {k});
      assert IdsOf(known, keys) == IdsOf(known, keys - {k}) + {known[k]};
    }
  }

  // ------------------------------------------------------------- main theorems

  /** The parts of a synced table: the refreshed rows that stay, then the new rows. */
  lemma SyncedParts(db: Db, source: string, events: seq<Event>, now: int)
    requires DbOk(db) && AllAcceptable(events)
    ensures var known := Lookup(db.rows, source);
            var dropped := IdsOf(known, known.Keys - IncomingIds(events));
            var refreshed, added := RefreshedAll(db.rows, known, events, now), NewRows(db.nextId, known, source, events, now);
            && Synced(db, source, events, now).0 == Db(Without(refreshed, dropped) + added, db.nextId + |added|)
            && (forall id :: id in dropped ==> id < db.nextId)
            && Occur(dropped, refreshed)
            && (forall i :: 0 <= i < |db.rows| ==> refreshed[i].id == db.rows[i].id)
  {
    var known := Lookup(db.rows, source);
    var dropped := IdsOf(known, known.Keys - IncomingIds(events));
    var refreshed, added := RefreshedAll(db.rows, known, events, now), NewRows(db.nextId, known, source, events, now);
    LookupIndexes(db.rows, source);
    ApplyAllClosed(db, known, source, events, now);
    NewRowsCounted(db.nextId, known, source, events, now);
    forall i | 0 <= i < |db.rows| ensures refreshed[i].id == db.rows[i].id {
      RefreshedKeeps(db.rows[i], known, events, now);
    }
    forall id | id in dropped ensures id < db.nextId && exists r :: r in refreshed && r.id == id {
      var r :| r in db.rows && r.id == id;
      var i :| 0 <= i < |db.rows| && db.rows[i] == r;
      assert refreshed[i] in refreshed;
    }
    WithoutAppend(refreshed, added, dropped);
    WithoutNothing(added, dropped);
  }

  lemma KeptAndAdded(refreshed: seq<Row>, added: seq<Row>, dropped: set<nat>, n: nat)
    requires Ascending(refreshed) && IdsBelow(refreshed, n)
    requires Occur(dropped, refreshed)
    requires forall i :: 0 <= i < |added| ==> added[i].id == n + i
    ensures var rows := Without(refreshed, dropped) + added;
            |rows| + |dropped| == |refreshed| + |added| && IdsBelow(rows, n + |added|) && Ascending(rows)
  {
    WithoutCount(refreshed, dropped);
    WithoutAscends(refreshed, dropped);
    WithoutMembers(refreshed, dropped);
    var kept := Without(refreshed, dropped);
    forall i | 0 <= i < |kept| ensures kept[i].id < n {
      assert kept[i] in refreshed;
    }
  }

  lemma DroppedCount(db: Db, source: string, keys: set<SourceId>)
    requires DbOk(db) && keys <= Lookup(db.rows, source).Keys
    ensures |IdsOf(Lookup(db.rows, source), keys)| == |keys|
  {
    LookupIndexes(db.rows, source);
    DbDistinct(db);
    KnownInjective(Lookup(db.rows, source), db.rows, source);
    IdsOfCount(Lookup(db.rows, source), keys);
  }

  /**
   For any table: every event is counted once, the row count changes by the rows inserted and
   deleted, and ids stay distinct and are never handed out again.
   */
  lemma SyncCounts(db: Db, source: string, events: seq<Event>, now: int)
    requires DbOk(db) && AllAcceptable(events)
    ensures var (synced, stats) := Synced(db, source, events, now);
            && stats.inserted + stats.updated == |events|
            && |synced.rows| + stats.deleted == |db.rows| + stats.inserted
            && DbOk(synced) && synced.nextId == db.nextId + stats.inserted
  {
    var known := Lookup(db.rows, source);
    var absent := known.Keys - IncomingIds(events);
    SyncedParts(db, source, events, now);
    NewRowsCounted(db.nextId, known, source, events, now);
    DroppedCount(db, source, absent);
    KeptAndAdded(RefreshedAll(db.rows, known, events, now), NewRows(db.nextId, known, source, events, now),
                 IdsOf(known, absent), db.nextId);
  }

  /** The rows of all other sources, in order. */
  function Others(rows: seq<Row>, source: string): seq<Row> {
    if rows == [] then []
    else Others(rows[..|rows| - 1], source) + if rows[|rows| - 1].source == source then [] else [rows[|rows| - 1]]
  }

  lemma {:induction false} OthersAppend(a: seq<Row>, b: seq<Row>, source: string)
    ensures Others(a + b, source) == Others(a, source) + Others(b, source)
  {
    if b == [] {
      assert a + b == a;
    } else {
      assert (a + b)[..|a + b| - 1] == a + b[..|b| - 1];
      OthersAppend(a, b[..|b| - 1], source);
    }
  }

  lemma {:induction false} OthersNone(rows: seq<Row>, source: string)
    requires forall r :: r in rows ==> r.source == source
    ensures Others(rows, source) == []
  {
    if rows != [] {
      OthersNone(rows[..|rows| - 1], source);
    }
  }

  /** Changing or dropping rows of the source leaves the others as they are. */
  lemma {:induction false} OthersSame(a: seq<Row>, b: seq<Row>, ids: set<nat>, source: string)
    requires |a| == |b|
    requires forall i :: 0 <= i < |a| ==> a[i] == b[i] || a[i].source == b[i].source == source
    requires forall r :: r in b && r.source != source ==> r.id !in ids
    ensures Others(Without(b, ids), source) == Others(a, source)
  {
    if a != [] {
      var last := b[|b| - 1];
      OthersSame(a[..|a| - 1], b[..|b| - 1], ids, source);
      OthersAppend(Without(b[..|b| - 1], ids), if last.id in ids then [] else [last], source);
      assert Others([last], source) == if last.source == source then [] else [last] by {
        assert [last][..0] == [];
      }
    }
  }

  lemma {:induction false} RefreshedUnaddressed(row: Row, known: map<SourceId, nat>, events: seq<Event>, now: int)
    requires AllAcceptable(events) && forall k :: k in known ==> known[k] != row.id
    ensures Refreshed(row, known, events, now) == row
  {
    if events != [] {
      RefreshedUnaddressed(row, known, events[..|events| - 1], now);
    }
  }

  lemma OthersOfParts(rows: seq<Row>, refreshed: seq<Row>, added: seq<Row>, dropped: set<nat>, source: string)
    requires |rows| == |refreshed|
    requires forall i :: 0 <= i < |rows| ==> rows[i] == refreshed[i] || rows[i].source == refreshed[i].source == source
    requires forall r :: r in refreshed && r.source != source ==> r.id !in dropped
    requires forall r :: r in added ==> r.source == source
    ensures Others(Without(refreshed, dropped) + added, source) == Others(rows, source)
  {
    OthersSame(rows, refreshed, dropped, source);
    OthersAppend(Without(refreshed, dropped), added, source);
    OthersNone(added, source);
  }

  lemma OthersUntouched(db: Db, source: string, events: seq<Event>, now: int, row: Row)
    requires DbOk(db) && AllAcceptable(events) && row in db.rows
    ensures var known := Lookup(db.rows, source);
            && Refreshed(row, known, events, now).source == row.source
            && (row.source != source ==>
                  Refreshed(row, known, events, now) == row && forall k :: k in known ==> known[k] != row.id)
  {
    var known := Lookup(db.rows, source);
    LookupIndexes(db.rows, source);
    DbDistinct(db);
    KnownInjective(known, db.rows, source);
    RefreshedKeeps(row, known, events, now);
    if row.source != source {
      RefreshedUnaddressed(row, known, events, now);
    }
  }

  /** For any table, a sync leaves the rows of all other sources as they are. */
  lemma SyncSparesOthers(db: Db, source: string, events: seq<Event>, now: int)
    requires DbOk(db) && AllAcceptable(events)
    ensures Others(Synced(db, source, events, now).0.rows, source) == Others(db.rows, source)
  {
    var known := Lookup(db.rows, source);
    var dropped := IdsOf(known, known.Keys - IncomingIds(events));
    var refreshed, added := RefreshedAll(db.rows, known, events, now), NewRows(db.nextId, known, source, events, now);
    SyncedParts(db, source, events, now);
    NewRowsCounted(db.nextId, known, source, events, now);
    forall i | 0 <= i < |db.rows|
      ensures refreshed[i].source == db.rows[i].source
      ensures db.rows[i].source != source ==> refreshed[i] == db.rows[i] && refreshed[i].id !in dropped
    {
      assert db.rows[i] in db.rows;
      OthersUntouched(db, source, events, now, db.rows[i]);
    }
    OthersOfParts(db.rows, refreshed, added, dropped, source);
  }

  /** The rows of a source have different source ids. */
  ghost predicate UniqueFor(rows: seq<Row>, source: string) {
    forall r, q :: r in rows && q in rows && r.source == q.source == source && r.sourceId == q.sourceId ==> r == q
  }

  /** Only ids that are already in the table are repeated among the events. */
  predicate RepeatsOnlyKnown(known: map<SourceId, nat>, events: seq<Event>)
    requires AllAcceptable(events)
  {
    forall i, j :: 0 <= i < j < |events| && events[i].id == events[j].id ==> events[i].id.value in known
  }

  function LastEvent(events: seq<Event>, k: SourceId): Event
    requires AllAcceptable(events) && k in IncomingIds(events)
    ensures LastEvent(events, k) in events
  {
    var last := events[|events| - 1];
    if last.id.value == k then last else LastEvent(events[..|events| - 1], k)
  }

  /** A row the index knows as its own ends up with the content of the last event of its id. */
  lemma {:induction false} RefreshedExact(row: Row, known: map<SourceId, nat>, events: seq<Event>, now: int)
    requires AllAcceptable(events) && row.sourceId in known && known[row.sourceId] == row.id
    requires forall k :: k in known && known[k] == row.id ==> k == row.sourceId
    ensures Refreshed(row, known, events, now)
         == if row.sourceId in IncomingIds(events)
            then row.(content := ContentOf(LastEvent(events, row.sourceId)), updatedAt := now)
            else row
  {
    if events != [] {
      var before, last := events[..|events| - 1], events[|events| - 1];
      RefreshedExact(row, known, before, now);
      assert events == before + [last];
      assert row.sourceId in IncomingIds(events) <==> row.sourceId in IncomingIds(before) || row.sourceId == last.id.value;
    }
  }

  lemma IncomingSnoc(events: seq<Event>, k: SourceId)
    requires AllAcceptable(events) && events != []
    ensures var before := events[..|events| - 1];
            k in IncomingIds(events) <==> k in IncomingIds(before) || k == events[|events| - 1].id.value
  {
    assert events == events[..|events| - 1] + [events[|events| - 1]];
  }

  /** One new row per new id, with the content of the last event of its id. */
  ghost predicate NewOk(added: seq<Row>, known: map<SourceId, nat>, source: string, events: seq<Event>, now: int)
    requires AllAcceptable(events)
  {
    && (forall r :: r in added ==>
          && r.sourceId in IncomingIds(events) && r.sourceId !in known && r.source == source
          && r.content == ContentOf(LastEvent(events, r.sourceId)) && r.updatedAt == now && r.progress == 0.0)
    && (forall k :: k in IncomingIds(events) && k !in known ==> exists r :: r in added && r.sourceId == k)
    && (forall r, q :: r in added && q in added && r.sourceId == q.sourceId ==> r == q)
  }

  lemma LastEventSnoc(events: seq<Event>, k: SourceId)
    requires AllAcceptable(events) && events != [] && k in IncomingIds(events[..|events| - 1])
    requires k != events[|events| - 1].id.value
    ensures k in IncomingIds(events) && LastEvent(events, k) == LastEvent(events[..|events| - 1], k)
  {
    IncomingSnoc(events, k);
  }

  lemma NewOkKnown(added: seq<Row>, known: map<SourceId, nat>, source: string, events: seq<Event>, now: int)
    requires AllAcceptable(events) && events != [] && events[|events| - 1].id.value in known
    requires NewOk(added, known, source, events[..|events| - 1], now)
    ensures NewOk(added, known, source, events, now)
  {
    var before := events[..|events| - 1];
    forall r | r in added
      ensures r.sourceId in IncomingIds(events) && LastEvent(events, r.sourceId) == LastEvent(before, r.sourceId)
    {
      LastEventSnoc(events, r.sourceId);
    }
    forall k | k in IncomingIds(events) && k !in known ensures exists r :: r in added && r.sourceId == k {
      IncomingSnoc(events, k);
    }
  }

  lemma NewOkNew(added: seq<Row>, row: Row, known: map<SourceId, nat>, source: string, events: seq<Event>, now: int)
    requires AllAcceptable(events) && events != []
    requires NewOk(added, known, source, events[..|events| - 1], now)
    requires var e := events[|events| - 1];
             && e.id.value !in known && e.id.value !in IncomingIds(events[..|events| - 1])
             && row == Row(row.id, source, e.id.value, ContentOf(e), 0.0, now, now)
    ensures NewOk(added + [row], known, source, events, now)
  {
    var before := events[..|events| - 1];
    IncomingSnoc(events, row.sourceId);
    forall r | r in added
      ensures r.sourceId in IncomingIds(events) && LastEvent(events, r.sourceId) == LastEvent(before, r.sourceId)
    {
      LastEventSnoc(events, r.sourceId);
    }
    forall k | k in IncomingIds(events) && k !in known ensures exists r :: r in added + [row] && r.sourceId == k {
      IncomingSnoc(events, k);
      if k in IncomingIds(before) {
        var r :| r in added && r.sourceId == k;
        assert r in added + [row];
      } else {
        assert row in added + [row];
      }
    }
  }

  lemma {:induction false} NewRowsExact(
    nextId: nat, known: map<SourceId, nat>, source: string, events: seq<Event>, now: int)
    requires AllAcceptable(events) && RepeatsOnlyKnown(known, events)
    ensures NewOk(NewRows(nextId, known, source, events, now), known, source, events, now)
  {
    if events != [] {
      var before, e := events[..|events| - 1], events[|events| - 1];
      var earlier := NewRows(nextId, known, source, before, now);
      NewRowsExact(nextId, known, source, before, now);
      if e.id.value in known {
        NewOkKnown(earlier, known, source, events, now);
      } else {
        var row := Row(nextId + |earlier|, source, e.id.value, ContentOf(e), 0.0, now, now);
        assert e.id.value !in IncomingIds(before);
        NewOkNew(earlier, row, known, source, events, now);
      }
    }
  }

  function Survivor(row: Row, events: seq<Event>, now: int): Row
    requires AllAcceptable(events) && row.sourceId in IncomingIds(events)
  {
    row.(content := ContentOf(LastEvent(events, row.sourceId)), updatedAt := now)
  }

  /** A row of a source without duplicates survives, refreshed, or is dropped with its id. */
  lemma OwnRow(db: Db, source: string, events: seq<Event>, now: int, row: Row)
    requires DbOk(db) && AllAcceptable(events) && UniqueFor(db.rows, source)
    requires row in db.rows && row.source == source
    ensures var known := Lookup(db.rows, source);
            && row.sourceId in known && known[row.sourceId] == row.id
            && Refreshed(row, known, events, now).id == row.id
            && (row.sourceId in IncomingIds(events) <==> row.id !in IdsOf(known, known.Keys - IncomingIds(events)))
            && (row.sourceId in IncomingIds(events) ==> Refreshed(row, known, events, now) == Survivor(row, events, now))
  {
    var known := Lookup(db.rows, source);
    LookupIndexes(db.rows, source);
    DbDistinct(db);
    KnownInjective(known, db.rows, source);
    assert known[row.sourceId] == row.id;
    RefreshedExact(row, known, events, now);
  }

  /** The rows of a source are the survivors among its old rows, and the added ones. */
  ghost predicate MadeOf(rows: seq<Row>, former: seq<Row>, added: seq<Row>, source: string, events: seq<Event>, now: int)
    requires AllAcceptable(events)
  {
    && (forall r :: r in added ==> r in rows)
    && (forall r :: r in former && r.source == source && r.sourceId in IncomingIds(events) ==> Survivor(r, events, now) in rows)
    && (forall r :: r in rows && r.source == source && r !in added ==>
          && r.sourceId in IncomingIds(events)
          && exists q :: q in former && q.source == source && q.sourceId == r.sourceId && r == Survivor(q, events, now))
  }

  lemma SurvivorsStay(db: Db, source: string, events: seq<Event>, now: int)
    requires DbOk(db) && AllAcceptable(events) && UniqueFor(db.rows, source)
    ensures var rows := Synced(db, source, events, now).0.rows;
            forall r :: r in db.rows && r.source == source && r.sourceId in IncomingIds(events) ==> Survivor(r, events, now) in rows
  {
    var known := Lookup(db.rows, source);
    var dropped := IdsOf(known, known.Keys - IncomingIds(events));
    var refreshed := RefreshedAll(db.rows, known, events, now);
    SyncedParts(db, source, events, now);
    WithoutMembers(refreshed, dropped);
    forall r | r in db.rows && r.source == source && r.sourceId in IncomingIds(events)
      ensures Survivor(r, events, now) in Without(refreshed, dropped)
    {
      OwnRow(db, source, events, now, r);
      var i :| 0 <= i < |db.rows| && db.rows[i] == r;
      assert refreshed[i] in refreshed;
    }
  }

  /** Where a row of the source that was kept comes from. */
  lemma KeptIsSurvivor(db: Db, source: string, events: seq<Event>, now: int, r: Row)
    requires DbOk(db) && AllAcceptable(events) && UniqueFor(db.rows, source)
    requires var known := Lookup(db.rows, source);
             r in Without(RefreshedAll(db.rows, known, events, now), IdsOf(known, known.Keys - IncomingIds(events)))
    requires r.source == source
    ensures r.sourceId in IncomingIds(events)
    ensures exists q :: q in db.rows && q.source == source && q.sourceId == r.sourceId && r == Survivor(q, events, now)
  {
    var known := Lookup(db.rows, source);
    var refreshed := RefreshedAll(db.rows, known, events, now);
    WithoutMembers(refreshed, IdsOf(known, known.Keys - IncomingIds(events)));
    var i :| 0 <= i < |refreshed| && refreshed[i] == r;
    var q := db.rows[i];
    OthersUntouched(db, source, events, now, q);
    OwnRow(db, source, events, now, q);
  }

  lemma SyncedMembers(db: Db, source: string, events: seq<Event>, now: int)
    requires DbOk(db) && AllAcceptable(events) && UniqueFor(db.rows, source)
    ensures MadeOf(Synced(db, source, events, now).0.rows, db.rows,
                   NewRows(db.nextId, Lookup(db.rows, source), source, events, now), source, events, now)
  {
    var added := NewRows(db.nextId, Lookup(db.rows, source), source, events, now);
    SyncedParts(db, source, events, now);
    SurvivorsStay(db, source, events, now);
    forall r | r in Synced(db, source, events, now).0.rows && r.source == source && r !in added
      ensures r.sourceId in IncomingIds(events)
      ensures exists q :: q in db.rows && q.source == source && q.sourceId == r.sourceId && r == Survivor(q, events, now)
    {
      KeptIsSurvivor(db, source, events, now, r);
    }
  }

  /** The content is that of the event, field by field. */
  predicate Carries(content: Content, e: Event) {
    && e.title == Some(content.title) && e.startTime == Some(content.startTime) && e.status == Some(content.status)
    && content.description == e.description && content.location == e.location && content.metadata == e.metadata
    && content.endTime == e.endTime && content.isAllDay == e.isAllDay
  }

  /** The rows of a source are exactly the events: one row per id, with the content of its last event. */
  ghost predicate Holds(rows: seq<Row>, source: string, events: seq<Event>)
    requires AllAcceptable(events)
  {
    && UniqueFor(rows, source)
    && (forall r :: r in rows && r.source == source ==>
          r.sourceId in IncomingIds(events) && Carries(r.content, LastEvent(events, r.sourceId)))
    && (forall k :: k in IncomingIds(events) ==> exists r :: r in rows && r.source == source && r.sourceId == k)
  }

  lemma PartsHold(
    rows: seq<Row>, former: seq<Row>, added: seq<Row>, known: map<SourceId, nat>, source: string, events: seq<Event>, now: int)
    requires AllAcceptable(events) && UniqueFor(former, source) && Indexes(known, former, source)
    requires MadeOf(rows, former, added, source, events, now) && NewOk(added, known, source, events, now)
    ensures Holds(rows, source, events)
    ensures forall r :: r in rows && r.source == source && r.sourceId !in known ==> r.progress == 0.0
  {
    forall k | k in IncomingIds(events) ensures exists r :: r in rows && r.source == source && r.sourceId == k {
      if k in known {
        var q :| q in former && q.source == source && q.sourceId == k;
        assert Survivor(q, events, now) in rows;
      }
    }
    forall r | r in rows && r.source == source && r !in added ensures r.sourceId in known {
    }
  }

  /**
   For a source without duplicate ids, and when only known ids are repeated, its rows become
   exactly the incoming events: survivors keep id, progress and creation time, new rows have none.
   */
  lemma SyncReplaces(db: Db, source: string, events: seq<Event>, now: int)
    requires DbOk(db) && AllAcceptable(events) && UniqueFor(db.rows, source)
    requires RepeatsOnlyKnown(Lookup(db.rows, source), events)
    ensures var rows := Synced(db, source, events, now).0.rows;
            && Holds(rows, source, events)
            && (forall r :: r in db.rows && r.source == source && r.sourceId in IncomingIds(events) ==>
                  Survivor(r, events, now) in rows)
            && (forall r :: r in rows && r.source == source && r.sourceId !in Lookup(db.rows, source) ==> r.progress == 0.0)
  {
    var known := Lookup(db.rows, source);
    var added := NewRows(db.nextId, known, source, events, now);
    SyncedMembers(db, source, events, now);
    NewRowsExact(db.nextId, known, source, events, now);
    LookupIndexes(db.rows, source);
    PartsHold(Synced(db, source, events, now).0.rows, db.rows, added, known, source, events, now);
  }

  /** Where the event with an unknown id puts its row. */
  lemma {:induction false} EventRow(
    nextId: nat, known: map<SourceId, nat>, source: string, events: seq<Event>, now: int, i: nat)
    requires AllAcceptable(events) && i < |events| && events[i].id.value !in known
    ensures var added := NewRows(nextId, known, source, events, now);
            var at := Unknown(known, events[..i]);
            at < |added| && added[at].sourceId == events[i].id.value
  {
    var before := events[..|events| - 1];
    NewRowsCounted(nextId, known, source, before, now);
    if i < |before| {
      EventRow(nextId, known, source, before, now, i);
      assert before[..i] == events[..i];
    } else {
      assert events[..i] == before;
    }
  }

  lemma {:induction false} UnknownGrows(known: map<SourceId, nat>, events: seq<Event>, i: nat, j: nat)
    requires AllAcceptable(events) && i < j <= |events| && events[i].id.value !in known
    ensures Unknown(known, events[..i]) < Unknown(known, events[..j])
    decreases j
  {
    assert events[..j][..j - 1] == events[..j - 1];
    if i < j - 1 {
      UnknownGrows(known, events, i, j - 1);
    }
  }

  lemma RepeatedNewRows(nextId: nat, known: map<SourceId, nat>, source: string, events: seq<Event>, now: int)
    requires AllAcceptable(events) && !RepeatsOnlyKnown(known, events)
    ensures !UniqueFor(NewRows(nextId, known, source, events, now), source)
  {
    var i, j :| 0 <= i < j < |events| && events[i].id == events[j].id && events[i].id.value !in known;
    var added := NewRows(nextId, known, source, events, now);
    EventRow(nextId, known, source, events, now, i);
    EventRow(nextId, known, source, events, now, j);
    UnknownGrows(known, events, i, j);
    NewRowsCounted(nextId, known, source, events, now);
    assert added[Unknown(known, events[..i])] in added && added[Unknown(known, events[..j])] in added;
  }

  /** A source without duplicates stays so exactly when no id that is new to the table is repeated. */
  lemma UniqueAfterSync(db: Db, source: string, events: seq<Event>, now: int)
    requires DbOk(db) && AllAcceptable(events) && UniqueFor(db.rows, source)
    ensures UniqueFor(Synced(db, source, events, now).0.rows, source)
       <==> RepeatsOnlyKnown(Lookup(db.rows, source), events)
  {
    var known := Lookup(db.rows, source);
    if RepeatsOnlyKnown(known, events) {
      SyncReplaces(db, source, events, now);
    } else {
      RepeatedNewRows(db.nextId, known, source, events, now);
      SyncedMembers(db, source, events, now);
      NewRowsCounted(db.nextId, known, source, events, now);
    }
  }

  /** A row whose id is not dropped is in the synced table, refreshed. */
  lemma UndroppedStays(db: Db, source: string, events: seq<Event>, now: int, row: Row)
    requires DbOk(db) && AllAcceptable(events) && row in db.rows
    requires var known := Lookup(db.rows, source); row.id !in IdsOf(known, known.Keys - IncomingIds(events))
    ensures Refreshed(row, Lookup(db.rows, source), events, now) in Synced(db, source, events, now).0.rows
  {
    var known := Lookup(db.rows, source);
    var refreshed := RefreshedAll(db.rows, known, events, now);
    var i :| 0 <= i < |db.rows| && db.rows[i] == row;
    RefreshedKeeps(row, known, events, now);
    assert refreshed[i] in refreshed;
    SyncedParts(db, source, events, now);
    WithoutMembers(refreshed, IdsOf(known, known.Keys - IncomingIds(events)));
  }

  /** A row that the index has lost to another one is neither changed nor dropped. */
  lemma StrayStays(db: Db, source: string, events: seq<Event>, now: int, row: Row)
    requires DbOk(db) && AllAcceptable(events) && row in db.rows && row.source == source
    requires row.sourceId in Lookup(db.rows, source) && Lookup(db.rows, source)[row.sourceId] != row.id
    ensures row in Synced(db, source, events, now).0.rows
  {
    LookupIndexes(db.rows, source);
    DbDistinct(db);
    KnownInjective(Lookup(db.rows, source), db.rows, source);
    RefreshedUnaddressed(row, Lookup(db.rows, source), events, now);
    UndroppedStays(db, source, events, now, row);
  }

  /** The row the index has for an incoming id stays. */
  lemma KnownStays(db: Db, source: string, events: seq<Event>, now: int, k: SourceId)
    requires DbOk(db) && AllAcceptable(events) && k in Lookup(db.rows, source) && k in IncomingIds(events)
    ensures exists r :: r in Synced(db, source, events, now).0.rows
                        && r.source == source && r.sourceId == k && r.id == Lookup(db.rows, source)[k]
  {
    var known := Lookup(db.rows, source);
    LookupIndexes(db.rows, source);
    DbDistinct(db);
    KnownInjective(known, db.rows, source);
    var row :| row in db.rows && row.source == source && row.sourceId == k && row.id == known[k];
    UndroppedStays(db, source, events, now, row);
    RefreshedKeeps(row, known, events, now);
  }

  lemma DuplicatesStay(db: Db, source: string, events: seq<Event>, now: int)
    requires DbOk(db) && AllAcceptable(events) && !UniqueFor(db.rows, source)
    ensures !Holds(Synced(db, source, events, now).0.rows, source, events)
  {
    var known, rows := Lookup(db.rows, source), Synced(db, source, events, now).0.rows;
    var r, q :| r in db.rows && q in db.rows && r.source == q.source == source && r.sourceId == q.sourceId && r != q;
    LookupIndexes(db.rows, source);
    DbDistinct(db);
    var stray := if known[r.sourceId] == r.id then q else r;
    StrayStays(db, source, events, now, stray);
    if stray.sourceId in IncomingIds(events) {
      KnownStays(db, source, events, now, stray.sourceId);
    }
  }

  /**
   The documented purpose of a sync, and exactly when it is met: the source's rows become the
   incoming events iff the source had no duplicate ids and no id new to the table is repeated.
   */
  lemma SyncMeetsPurpose(db: Db, source: string, events: seq<Event>, now: int)
    requires DbOk(db) && AllAcceptable(events)
    ensures Holds(Synced(db, source, events, now).0.rows, source, events)
       <==> UniqueFor(db.rows, source) && RepeatsOnlyKnown(Lookup(db.rows, source), events)
  {
    if !UniqueFor(db.rows, source) {
      DuplicatesStay(db, source, events, now);
    } else if RepeatsOnlyKnown(Lookup(db.rows, source), events) {
      SyncReplaces(db, source, events, now);
    } else {
      UniqueAfterSync(db, source, events, now);
    }
  }

  /** Two rows of one source id, and nothing incoming: only the last of them is deleted. */
  lemma DuplicateSurvives(content: Content)
    ensures var first := Row(1, "wakeup", Some("x"), content, 0.0, 0, 0);
            var db := Db([first, first.(id := 2)], 3);
            && DbOk(db)
            && first in Synced(db, "wakeup", [], 1).0.rows
            && !Holds(Synced(db, "wakeup", [], 1).0.rows, "wakeup", [])
  {
    var first := Row(1, "wakeup", Some("x"), content, 0.0, 0, 0);
    var rows := [first, first.(id := 2)];
    assert rows[0] in rows && rows[1] in rows;
    LookupTwo(first, first.(id := 2));
    StrayStays(Db(rows, 3), "wakeup", [], 1, first);
    DuplicatesStay(Db(rows, 3), "wakeup", [], 1);
  }

  lemma LookupTwo(a: Row, b: Row)
    requires a.source == b.source && a.sourceId == b.sourceId
    ensures a.sourceId in Lookup([a, b], a.source) && Lookup([a, b], a.source)[a.sourceId] == b.id
  {
    assert [a, b][..1] == [a];
  }

  /** One new id twice, into an empty table: two rows. */
  lemma RepeatDuplicates(event: Event)
    requires Acceptable(event)
    ensures !UniqueFor(Synced(Db([], 1), "wakeup", [event, event], 0).0.rows, "wakeup")
  {
    UniqueAfterSync(Db([], 1), "wakeup", [event, event], 0);
    assert [event, event][0].id == [event, event][1].id;
  }

  lemma {:induction false} AllKnown(known: map<SourceId, nat>, events: seq<Event>)
    requires AllAcceptable(events) && forall k :: k in IncomingIds(events) ==> k in known
    ensures Unknown(known, events) == 0 && Known(known, events) == |events|
  {
    if events != [] {
      forall k | k in IncomingIds(events[..|events| - 1]) ensures k in known {
        IncomingSnoc(events, k);
      }
      IncomingSnoc(events, events[|events| - 1].id.value);
      AllKnown(known, events[..|events| - 1]);
    }
  }

  /** Only the time of the last change, and only in rows of the source. */
  function Touched(rows: seq<Row>, source: string, now: int): seq<Row> {
    seq(|rows|, i requires 0 <= i < |rows| =>
      if rows[i].source == source then rows[i].(updatedAt := now) else rows[i])
  }

  lemma HeldRefresh(db: Db, source: string, events: seq<Event>, now: int)
    requires DbOk(db) && AllAcceptable(events) && Holds(db.rows, source, events)
    ensures RefreshedAll(db.rows, Lookup(db.rows, source), events, now) == Touched(db.rows, source, now)
  {
    var refreshed := RefreshedAll(db.rows, Lookup(db.rows, source), events, now);
    forall i | 0 <= i < |db.rows| ensures refreshed[i] == Touched(db.rows, source, now)[i] {
      assert db.rows[i] in db.rows;
      OthersUntouched(db, source, events, now, db.rows[i]);
      if db.rows[i].source == source {
        OwnRow(db, source, events, now, db.rows[i]);
      }
    }
  }

  lemma HeldKeys(db: Db, source: string, events: seq<Event>)
    requires AllAcceptable(events) && Holds(db.rows, source, events)
    ensures Lookup(db.rows, source).Keys == IncomingIds(events)
  {
    LookupIndexes(db.rows, source);
  }

  lemma SettledStats(db: Db, source: string, events: seq<Event>, now: int)
    requires DbOk(db) && AllAcceptable(events) && Holds(db.rows, source, events)
    ensures Synced(db, source, events, now).1 == Stats(0, |events|, 0)
    ensures NewRows(db.nextId, Lookup(db.rows, source), source, events, now) == []
  {
    var known := Lookup(db.rows, source);
    HeldKeys(db, source, events);
    AllKnown(known, events);
    NewRowsCounted(db.nextId, known, source, events, now);
    assert known.Keys - IncomingIds(events) == {};
  }

  lemma SettledSync(db: Db, source: string, events: seq<Event>, now: int)
    requires DbOk(db) && AllAcceptable(events) && Holds(db.rows, source, events)
    ensures Synced(db, source, events, now).0 == Db(Touched(db.rows, source, now), db.nextId)
    ensures Synced(db, source, events, now).1 == Stats(0, |events|, 0)
  {
    var dropped := IdsOf(Lookup(db.rows, source), Lookup(db.rows, source).Keys - IncomingIds(events));
    SettledStats(db, source, events, now);
    SyncedParts(db, source, events, now);
    HeldKeys(db, source, events);
    HeldRefresh(db, source, events, now);
    assert dropped == {};
    WithoutNothing(Touched(db.rows, source, now), dropped);
    var synced := Synced(db, source, events, now).0;
    assert synced.rows == Touched(db.rows, source, now) + [];
  }

  /** Repeating a sync inserts and deletes nothing and changes no more than the time of the change. */
  lemma SyncIdempotent(db: Db, source: string, events: seq<Event>, now: int, later: int)
    requires DbOk(db) && AllAcceptable(events) && UniqueFor(db.rows, source)
    requires RepeatsOnlyKnown(Lookup(db.rows, source), events)
    ensures var synced := Synced(db, source, events, now).0;
            var (again, stats) := Synced(synced, source, events, later);
            again == Db(Touched(synced.rows, source, later), synced.nextId) && stats == Stats(0, |events|, 0)
  {
    SyncReplaces(db, source, events, now);
    SyncCounts(db, source, events, now);
    SettledSync(Synced(db, source, events, now).0, source, events, later);
  }

  // --------------------------------------------------------- upsert and delete

  /** The first row of a source id; a missing source id matches nothing. */
  function Find(rows: seq<Row>, source: string, sourceId: string): Option<nat> {
    if rows == [] then None
    else if rows[0].source == source && rows[0].sourceId == Some(sourceId) then Some(rows[0].id)
    else Find(rows[1..], source, sourceId)
  }

  function Overwrite(row: Row, id: nat, content: Content, progress: real, now: int): Row {
    if row.id == id then row.(content := content, progress := progress, updatedAt := now) else row
  }

  function OverwriteAll(rows: seq<Row>, id: nat, content: Content, progress: real, now: int): seq<Row> {
    seq(|rows|, i requires 0 <= i < |rows| => Overwrite(rows[i], id, content, progress, now))
  }

  function Upserted(db: Db, source: string, sourceId: string, content: Content, progress: real, now: int): (Db, nat) {
    match Find(db.rows, source, sourceId)
    case Some(id) => (db.(rows := OverwriteAll(db.rows, id, content, progress, now)), id)
    case None => (Insert(db, source, Some(sourceId), content, progress, now), db.nextId)
  }

  lemma {:induction false} FindFinds(rows: seq<Row>, source: string, sourceId: string)
    ensures var id := Find(rows, source, sourceId);
            && (id.None? <==> forall r :: r in rows ==> !(r.source == source && r.sourceId == Some(sourceId)))
            && (id.Some? ==> exists r :: r in rows && r.id == id.value && r.source == source && r.sourceId == Some(sourceId))
  {
    if rows != [] {
      FindFinds(rows[1..], source, sourceId);
      assert rows == [rows[0]] + rows[1..];
    }
  }

  /** The row an upsert is to leave. */
  ghost predicate Stores(rows: seq<Row>, id: nat, source: string, sourceId: string, content: Content, progress: real, now: int) {
    exists r :: r in rows && r.id == id && r.source == source && r.sourceId == Some(sourceId)
                && r.content == content && r.progress == progress && r.updatedAt == now
  }

  ghost predicate SameBut(a: seq<Row>, b: seq<Row>, id: nat) {
    forall r: Row :: r.id != id ==> (r in a <==> r in b)
  }

  lemma OverwriteStores(rows: seq<Row>, row: Row, content: Content, progress: real, now: int)
    requires row in rows && row.sourceId.Some?
    ensures var rows' := OverwriteAll(rows, row.id, content, progress, now);
            && Stores(rows', row.id, row.source, row.sourceId.value, content, progress, now)
            && SameBut(rows, rows', row.id)
            && (forall source :: Distinct(rows) && UniqueFor(rows, source) ==> UniqueFor(rows', source))
  {
    var rows' := OverwriteAll(rows, row.id, content, progress, now);
    var i :| 0 <= i < |rows| && rows[i] == row;
    assert rows'[i] in rows';
    forall q | q in rows && q.id != row.id ensures q in rows' {
      var j :| 0 <= j < |rows| && rows[j] == q;
      assert rows'[j] == q;
    }
    forall source, r, q | Distinct(rows) && UniqueFor(rows, source) && r in rows' && q in rows'
                          && r.source == q.source == source && r.sourceId == q.sourceId
      ensures r == q
    {
      var m :| 0 <= m < |rows'| && rows'[m] == r;
      var n :| 0 <= n < |rows'| && rows'[n] == q;
      assert rows[m] in rows && rows[n] in rows;
    }
  }

  lemma InsertStores(rows: seq<Row>, row: Row)
    requires row.sourceId.Some? && forall r :: r in rows ==> !(r.source == row.source && r.sourceId == row.sourceId)
    ensures var rows' := rows + [row];
            && Stores(rows', row.id, row.source, row.sourceId.value, row.content, row.progress, row.updatedAt)
            && SameBut(rows, rows', row.id)
            && (forall source :: UniqueFor(rows, source) ==> UniqueFor(rows', source))
  {
    assert row in rows + [row];
  }

  lemma UpsertFinds(db: Db, source: string, sourceId: string, content: Content, progress: real, now: int, row: Row)
    requires DbOk(db) && Find(db.rows, source, sourceId) == Some(row.id)
    requires row in db.rows && row.source == source && row.sourceId == Some(sourceId)
    ensures var rows := OverwriteAll(db.rows, row.id, content, progress, now);
            && DbOk(Db(rows, db.nextId)) && Find(rows, source, sourceId) == Some(row.id)
            && Stores(rows, row.id, source, sourceId, content, progress, now) && SameBut(db.rows, rows, row.id)
            && (forall s :: UniqueFor(db.rows, s) ==> UniqueFor(rows, s))
  {
    DbDistinct(db);
    OverwriteStores(db.rows, row, content, progress, now);
    FindSame(db.rows, OverwriteAll(db.rows, row.id, content, progress, now), source, sourceId);
  }

  lemma UpsertAdds(db: Db, row: Row)
    requires DbOk(db) && row.id == db.nextId && row.sourceId.Some?
    requires Find(db.rows, row.source, row.sourceId.value).None?
    ensures var rows := db.rows + [row];
            && DbOk(Db(rows, db.nextId + 1)) && Find(rows, row.source, row.sourceId.value) == Some(row.id)
            && Stores(rows, row.id, row.source, row.sourceId.value, row.content, row.progress, row.updatedAt)
            && SameBut(db.rows, rows, row.id)
            && (forall s :: UniqueFor(db.rows, s) ==> UniqueFor(rows, s))
  {
    FindFinds(db.rows, row.source, row.sourceId.value);
    InsertStores(db.rows, row);
    FindLast(db.rows, row, row.source, row.sourceId.value);
  }

  /**
   An upsert leaves one row changed or added, the one under the returned id, which holds what was
   given; it never adds a duplicate, and a second upsert of the same finds the row of the first.
   */
  lemma UpsertStores(db: Db, source: string, sourceId: string, content: Content, progress: real, now: int)
    requires DbOk(db)
    ensures var (db', id) := Upserted(db, source, sourceId, content, progress, now);
            && DbOk(db')
            && Stores(db'.rows, id, source, sourceId, content, progress, now)
            && SameBut(db.rows, db'.rows, id)
            && (forall s :: UniqueFor(db.rows, s) ==> UniqueFor(db'.rows, s))
            && Find(db'.rows, source, sourceId) == Some(id)
            && |db'.rows| == |db.rows| + if Find(db.rows, source, sourceId).Some? then 0 else 1
  {
    FindFinds(db.rows, source, sourceId);
    match Find(db.rows, source, sourceId)
    case Some(id) =>
      var row :| row in db.rows && row.id == id && row.source == source && row.sourceId == Some(sourceId);
      UpsertFinds(db, source, sourceId, content, progress, now, row);
    case None => UpsertAdds(db, Row(db.nextId, source, Some(sourceId), content, progress, now, now));
  }

  lemma {:induction false} FindSame(a: seq<Row>, b: seq<Row>, source: string, sourceId: string)
    requires |a| == |b| && forall i :: 0 <= i < |a| ==>
      a[i].id == b[i].id && a[i].source == b[i].source && a[i].sourceId == b[i].sourceId
    ensures Find(a, source, sourceId) == Find(b, source, sourceId)
  {
    if a != [] {
      FindSame(a[1..], b[1..], source, sourceId);
    }
  }

  lemma {:induction false} FindLast(rows: seq<Row>, row: Row, source: string, sourceId: string)
    requires row.source == source && row.sourceId == Some(sourceId) && Find(rows, source, sourceId).None?
    ensures Find(rows + [row], source, sourceId) == Some(row.id)
  {
    if rows != [] {
      assert (rows + [row])[1..] == rows[1..] + [row];
      FindLast(rows[1..], row, source, sourceId);
    }
  }

  // --------------------------------------------------------------- the class

  class TimelineTable {
    var rows: seq<Row>
    var nextId: nat

    constructor ()
      ensures State() == Db([], 1) && DbOk(State())
    {
      rows, nextId := [], 1;
    }

    function State(): Db
      reads this
    {
      Db(rows, nextId)
    }

    method Upsert(source: string, sourceId: string, content: Content, progress: real, now: int) returns (id: nat)
      requires DbOk(State())
      modifies this
      ensures (State(), id) == Upserted(old(State()), source, sourceId, content, progress, now) && DbOk(State())
    {
      UpsertStores(State(), source, sourceId, content, progress, now);
      var existing := Find(rows, source, sourceId);
      if existing.Some? {
        id := existing.value;
        rows := OverwriteAll(rows, id, content, progress, now);
      } else {
        id := nextId;
        rows := rows + [Row(id, source, Some(sourceId), content, progress, now, now)];
        nextId := nextId + 1;
      }
    }

    method Delete(id: nat) returns (deleted: bool)
      requires DbOk(State())
      modifies `rows
      ensures rows == Without(old(rows), {id}) && DbOk(State())
      ensures deleted <==> exists r :: r in old(rows) && r.id == id
      ensures |rows| == |old(rows)| - if deleted then 1 else 0
    {
      var before := rows;
      rows := Without(rows, {id});
      deleted := |rows| < |before|;
      WithoutMembers(before, {id});
      WithoutAscends(before, {id});
      forall i | 0 <= i < |rows| ensures rows[i].id < nextId {
        assert rows[i] in before;
      }
      if exists r :: r in before && r.id == id {
        WithoutCount(before, {id});
      } else {
        WithoutNothing(before, {id});
      }
    }

    method ReadKnown(source: string) returns (known: map<SourceId, nat>)
      ensures known == Lookup(rows, source)
    {
      known := map[];
      for i := 0 to |rows|
        invariant known == Lookup(rows[..i], source)
      {
        assert rows[..i + 1][..i] == rows[..i];
        if rows[i].source == source {
          known := known[rows[i].sourceId := rows[i].id];
        }
      }
      assert rows[..|rows|] == rows;
    }

    /** The updates and insertions of a sync, on a copy that is not committed yet. */
    method ApplyEvents(db: Db, known: map<SourceId, nat>, source: string, events: seq<Event>, now: int)
      returns (applied: Option<Db>, inserted: nat, updated: nat)
      requires forall i :: 0 <= i < |events| ==> events[i].id.Some?
      ensures applied.Some? <==> AllAcceptable(events)
      ensures applied.Some? ==>
        && applied.value == ApplyAll(db, known, source, events, now)
        && inserted == Unknown(known, events) && updated == Known(known, events)
    {
      var current := db;
      inserted, updated := 0, 0;
      for i := 0 to |events|
        invariant AllAcceptable(events[..i])
        invariant current == ApplyAll(db, known, source, events[..i], now)
        invariant inserted == Unknown(known, events[..i]) && updated == Known(known, events[..i])
      {
        if !Storable(events[i]) {
          return None, 0, 0;
        }
        assert events[..i + 1][..i] == events[..i];
        if events[i].id.value in known {
          current := current.(rows := ChangeAll(current.rows, known[events[i].id.value], ContentOf(events[i]), now));
          updated := updated + 1;
        } else {
          current := Insert(current, source, events[i].id.value, ContentOf(events[i]), 0.0, now);
          inserted := inserted + 1;
        }
      }
      assert events[..|events|] == events;
      applied := Some(current);
    }

    /** One transaction: on an unacceptable event nothing of it is kept. */
    method Sync(source: string, events: seq<Event>, now: int) returns (r: Result<Stats, TableError>)
      requires DbOk(State())
      modifies this
      ensures DbOk(State())
      ensures r.Ok? <==> AllAcceptable(events)
      ensures r.Ok? ==>
        State() == Synced(old(State()), source, events, now).0 && r.value == Synced(old(State()), source, events, now).1
      ensures r.Err? ==> State() == old(State())
      ensures r.Err? && r.error == IdMissing <==> exists i :: 0 <= i < |events| && events[i].id.None?
    {
      if exists i :: 0 <= i < |events| && events[i].id.None? {
        return Err(IdMissing);
      }
      var known := ReadKnown(source);
      var applied, inserted, updated := ApplyEvents(State(), known, source, events, now);
      if applied.None? {
        return Err(NotStorable);
      }
      SyncCounts(State(), source, events, now);
      var kept, deleted := RemoveAbsent(applied.value.rows, known, IncomingIds(events));
      rows, nextId := kept, applied.value.nextId;
      r := Ok(Stats(inserted, updated, deleted));
    }

    /** Deletes the known rows whose id is not among the incoming ones. */
    method RemoveAbsent(applied: seq<Row>, known: map<SourceId, nat>, incoming: set<SourceId>)
      returns (kept: seq<Row>, deleted: nat)
      ensures kept == Without(applied, IdsOf(known, known.Keys - incoming))
      ensures deleted == |known.Keys - incoming|
    {
      kept, deleted := applied, 0;
      var left := known.Keys;
      ghost var gone: set<SourceId> := {};
      assert IdsOf(known, gone) == {};
      WithoutNothing(applied, {});
      while left != {}
        invariant left <= known.Keys && gone <= known.Keys && gone !! left && gone !! incoming
        invariant known.Keys <= gone + left + incoming
        invariant kept == Without(applied, IdsOf(known, gone)) && deleted == |gone|
        decreases left
      {
        var k :| k in left;
        if k !in incoming {
          RemoveOne(applied, known, gone, k);
          kept := Without(kept, {known[k]});
          deleted := deleted + 1;
          gone := gone + {k};
        }
        left := left - {k};
      }
      assert gone == known.Keys - incoming;
    }
  }

  lemma WithoutSnoc(rows: seq<Row>, last: Row, ids: set<nat>)
    ensures Without(rows + [last], ids) == Without(rows, ids) + if last.id in ids then [] else [last]
  {
    assert (rows + [last])[..|rows|] == rows;
  }

  lemma {:induction false} WithoutTwice(rows: seq<Row>, ids: set<nat>, id: nat)
    ensures Without(Without(rows, ids), {id}) == Without(rows, ids + {id})
  {
    if rows != [] {
      var before, last := rows[..|rows| - 1], rows[|rows| - 1];
      WithoutTwice(before, ids, id);
      assert rows == before + [last];
      WithoutSnoc(before, last, ids);
      WithoutSnoc(before, last, ids + {id});
      if last.id !in ids {
        WithoutSnoc(Without(before, ids), last, {id});
      } else {
        assert Without(before, ids) + [] == Without(before, ids);
      }
    }
  }

  lemma RemoveOne(rows: seq<Row>, known: map<SourceId, nat>, gone: set<SourceId>, k: SourceId)
    requires gone <= known.Keys && k in known && k !in gone
    ensures Without(Without(rows, IdsOf(known, gone)), {known[k]}) == Without(rows, IdsOf(known, gone + {k}))
    ensures |gone + {k}| == |gone| + 1
  {
    WithoutTwice(rows, IdsOf(known, gone), known[k]);
    assert IdsOf(known, gone + {k}) == IdsOf(known, gone) + {known[k]};
  }
}
