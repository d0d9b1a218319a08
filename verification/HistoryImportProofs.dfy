/** History import keeps what is there, adds each unknown event once, and changes nothing a second time. */
module HistoryImportProofs {
  import opened Wrappers
  import opened Json
  import opened Events
  import opened Sequences
  import opened EventRepository
  import opened HistoryImport

  // ---- What an open import has done so far ----

  /** `rows` are `was` followed by rows at consecutive positions from `next`. */
  predicate Consecutive(was: seq<EventRow>, rows: seq<EventRow>, next: nat) {
    && was <= rows
    && forall i :: |was| <= i < |rows| ==> rows[i].position == next + i - |was|
  }

  predicate StreamSound(base: Database, w: Work, p: nat)
    requires p < |w.db.projects|
  {
    var was, rows, next := Stream(base.events, p), Stream(w.db.events, p), w.db.projects[p].nextPosition;
    Consecutive(was, rows, next) && Counter(w, p) == next + |rows| - |was|
  }

  predicate ProjectsSound(base: Database, w: Work) {
    && base.projects <= w.db.projects
    && DistinctPaths(w.db.projects)
    && (forall p :: |base.projects| <= p < |w.db.projects| ==> w.db.projects[p].nextPosition == 1)
    && (forall p :: p in w.counters ==> p < |w.db.projects|)
  }

  predicate TablesSound(base: Database, w: Work) {
    && base.sessions <= w.db.sessions
    && base.events <= w.db.events
    && References(w.db)
    && DistinctRowIds(w.db.events)
    && w.known == KnownIds(w.db.events)
    && w.newSessions == |w.db.sessions| - |base.sessions|
    && w.newEvents == |w.db.events| - |base.events|
  }

  predicate Sound(base: Database, w: Work) {
    && ProjectsSound(base, w)
    && TablesSound(base, w)
    && forall p :: 0 <= p < |w.db.projects| ==> StreamSound(base, w, p)
  }

  predicate MapsInto(m: RowMap, n: nat) {
    forall id :: id in m ==> m[id] < n
  }

  lemma BeginIsSound(db: Database)
    requires Valid(db)
    ensures Sound(db, Begin(db))
  {
  }

  // ---- Projects and sessions ----

  predicate Newcomers(projects: seq<Project>, r: seq<Project>) {
    && projects <= r
    && DistinctPaths(r)
    && forall p :: |projects| <= p < |r| ==> r[p].nextPosition == 1
  }

  lemma WithProjectSound(projects: seq<Project>, was: seq<Project>, path: string)
    requires Newcomers(projects, was)
    ensures Newcomers(projects, WithProject(was, path))
  {
  }

  lemma {:induction false} ProjectsAfterSound(projects: seq<Project>, rows: seq<SourceProject>)
    requires DistinctPaths(projects)
    ensures Newcomers(projects, ProjectsAfter(projects, rows))
  {
    if rows != [] {
      hide Newcomers, WithProject;
      ProjectsAfterSound(projects, rows[..|rows| - 1]);
      WithProjectSound(projects, ProjectsAfter(projects, rows[..|rows| - 1]), rows[|rows| - 1].path);
    }
  }

  lemma {:induction false} ProjectMapInto(projects: seq<Project>, rows: seq<SourceProject>)
    ensures MapsInto(ProjectMap(projects, rows), |projects|)
  {
    if rows != [] {
      ProjectMapInto(projects, rows[..|rows| - 1]);
    }
  }

  lemma {:induction false} SessionMapInto(sessions: seq<Session>, pm: RowMap, rows: seq<SourceSession>)
    ensures MapsInto(SessionMap(sessions, pm, rows), |sessions|)
  {
    if rows != [] {
      SessionMapInto(sessions, pm, rows[..|rows| - 1]);
    }
  }

  predicate SessionsInto(sessions: seq<Session>, n: nat) {
    forall i :: 0 <= i < |sessions| ==> sessions[i].project < n
  }

  lemma {:induction false} SessionsAfterInto(sessions: seq<Session>, pm: RowMap, rows: seq<SourceSession>, n: nat)
    requires SessionsInto(sessions, n) && MapsInto(pm, n)
    ensures var r := SessionsAfter(sessions, pm, rows); r.Ok? ==> SessionsInto(r.value, n)
  {
    if rows != [] {
      SessionsAfterInto(sessions, pm, rows[..|rows| - 1], n);
    }
  }

  lemma {:induction false} NoRowsOfProject(events: seq<EventRow>, p: nat)
    requires forall i :: 0 <= i < |events| ==> events[i].project != p
    ensures Stream(events, p) == []
  {
    if events != [] {
      NoRowsOfProject(events[..|events| - 1], p);
    }
  }

  lemma PlacedIsSound(base: Database, w: Work, s: Source)
    requires Valid(base) && Sound(base, w) && Placed(w, s).Ok?
    ensures Sound(base, Placed(w, s).value)
  {
    var projects := ProjectsAfter(w.db.projects, s.projects);
    var pm := ProjectMap(projects, s.projects);
    var r := Placed(w, s).value;
    ProjectsAfterSound(w.db.projects, s.projects);
    ProjectMapInto(projects, s.projects);
    SessionsAfterInto(w.db.sessions, pm, s.sessions, |projects|);
    assert ProjectsSound(base, r);
    assert TablesSound(base, r);
    forall p | 0 <= p < |r.db.projects| ensures StreamSound(base, r, p) {
      PlacedStream(base, w, r, p);
    }
  }

  lemma PlacedStream(base: Database, w: Work, r: Work, p: nat)
    requires Valid(base) && Sound(base, w)
    requires w.db.projects <= r.db.projects && r.db.events == w.db.events && r.counters == w.counters
    requires p < |r.db.projects| && (p >= |w.db.projects| ==> r.db.projects[p].nextPosition == 1)
    ensures StreamSound(base, r, p)
  {
    if p < |w.db.projects| {
      assert StreamSound(base, w, p);
    } else {
      NoRowsOfProject(base.events, p);
      NoRowsOfProject(w.db.events, p);
    }
  }

  // ---- Events ----

  lemma TakeEventIsSound(base: Database, w: Work, pm: RowMap, sm: RowMap, e: SourceEvent)
    requires Sound(base, w) && MapsInto(pm, |w.db.projects|) && MapsInto(sm, |w.db.sessions|)
    requires TakeEvent(w, pm, sm, e).Ok?
    ensures
      var r := TakeEvent(w, pm, sm, e).value;
      Sound(base, r) && r.db.projects == w.db.projects && r.db.sessions == w.db.sessions && r.known == w.known + {e.id}
  {
    if e.id !in w.known {
      var r := TakeEvent(w, pm, sm, e).value;
      var p := pm[e.project];
      var row := ImportedRow(e, p, sm[e.session], Counter(w, p));
      forall q | 0 <= q < |r.db.projects| ensures StreamSound(base, r, q) {
        TakenStream(base, w, r, p, q, row);
      }
      TakenTables(base, w, r, row);
    }
  }

  lemma TakenStream(base: Database, w: Work, r: Work, p: nat, q: nat, row: EventRow)
    requires q < |w.db.projects| && StreamSound(base, w, q)
    requires r.db.projects == w.db.projects && r.db.events == w.db.events + [row]
    requires row.project == p && row.position == Counter(w, p) && r.counters == w.counters[p := Counter(w, p) + 1]
    ensures StreamSound(base, r, q)
  {
    hide Stream;
    StreamSnoc(w.db.events, row, q);
  }

  lemma TakenTables(base: Database, w: Work, r: Work, row: EventRow)
    requires TablesSound(base, w) && row.id !in w.known
    requires row.project < |w.db.projects| && row.session < |w.db.sessions|
    requires r.db == w.db.(events := w.db.events + [row]) && r.known == w.known + {row.id}
    requires r.newSessions == w.newSessions && r.newEvents == w.newEvents + 1
    ensures TablesSound(base, r)
  {
    KnownSnoc(w.db.events, row);
    forall i | 0 <= i < |w.db.events| ensures w.db.events[i].id != row.id {
      assert w.db.events[i] in w.db.events;
      assert w.db.events[i].id in w.known;
    }
  }

  lemma KnownSnoc(events: seq<EventRow>, row: EventRow)
    ensures KnownIds(events + [row]) == KnownIds(events) + {row.id}
  {
    assert forall x :: x in events + [row] <==> x in events || x == row;
    assert row in events + [row];
  }

  function SourceIds(rows: seq<SourceEvent>): set<string> {
    set e | e in rows :: e.id
  }

  lemma SourceIdsSnoc(rows: seq<SourceEvent>)
    requires rows != []
    ensures SourceIds(rows) == SourceIds(rows[..|rows| - 1]) + {rows[|rows| - 1].id}
  {
    var front, last := rows[..|rows| - 1], rows[|rows| - 1];
    assert rows == front + [last];
    assert forall e :: e in rows <==> e in front || e == last;
  }

  lemma {:induction false} TakeEventsIsSound(base: Database, w: Work, pm: RowMap, sm: RowMap, rows: seq<SourceEvent>)
    requires Sound(base, w) && MapsInto(pm, |w.db.projects|) && MapsInto(sm, |w.db.sessions|)
    requires TakeEvents(w, pm, sm, rows).Ok?
    ensures
      var r := TakeEvents(w, pm, sm, rows).value;
      && Sound(base, r) && r.db.projects == w.db.projects && r.db.sessions == w.db.sessions
      && r.known == w.known + SourceIds(rows)
  {
    if rows != [] {
      var front := rows[..|rows| - 1];
      TakeEventsIsSound(base, w, pm, sm, front);
      TakeEventIsSound(base, TakeEvents(w, pm, sm, front).value, pm, sm, rows[|rows| - 1]);
      SourceIdsSnoc(rows);
    }
  }

  lemma TakeSourceIsSound(base: Database, w: Work, s: Source)
    requires Valid(base) && Sound(base, w) && TakeSource(w, s).Ok?
    ensures
      var r := TakeSource(w, s).value;
      && Sound(base, r)
      && r.known == w.known + (if s.skip then {} else SourceIds(s.events))
      && (!s.skip ==>
          r.db.projects == Placed(w, s).value.db.projects && r.db.sessions == Placed(w, s).value.db.sessions)
  {
    if !s.skip {
      hide Sound, Placed;
      var placed := Placed(w, s).value;
      PlacedIsSound(base, w, s);
      var pm := ProjectMap(placed.db.projects, s.projects);
      ProjectMapInto(placed.db.projects, s.projects);
      SessionMapInto(placed.db.sessions, pm, s.sessions);
      TakeEventsIsSound(base, placed, pm, SessionMap(placed.db.sessions, pm, s.sessions), s.events);
      PlacedKeepsKnown(w, s);
    }
  }

  lemma PlacedKeepsKnown(w: Work, s: Source)
    requires Placed(w, s).Ok?
    ensures Placed(w, s).value.known == w.known
  {
  }

  function OfferedIds(sources: seq<Source>): set<string> {
    if sources == [] then {}
    else
      var last := sources[|sources| - 1];
      OfferedIds(sources[..|sources| - 1]) + (if last.skip then {} else SourceIds(last.events))
  }

  lemma {:induction false} TakeSourcesIsSound(base: Database, w: Work, sources: seq<Source>)
    requires Valid(base) && Sound(base, w) && TakeSources(w, sources).Ok?
    ensures Sound(base, TakeSources(w, sources).value)
    ensures TakeSources(w, sources).value.known == w.known + OfferedIds(sources)
  {
    if sources != [] {
      hide Sound, TakeSource;
      var front := sources[..|sources| - 1];
      TakeSourcesIsSound(base, w, front);
      TakeSourceIsSound(base, TakeSources(w, front).value, sources[|sources| - 1]);
    }
  }

  // ---- The committed result ----

  /** Nothing that was there changed; what was added to each stream runs on from its counter. */
  ghost predicate Extends(base: Database, r: Database) {
    && |base.projects| <= |r.projects|
    && (forall p :: 0 <= p < |base.projects| ==> r.projects[p].path == base.projects[p].path)
    && base.sessions <= r.sessions
    && base.events <= r.events
    && forall p :: 0 <= p < |r.projects| ==> StreamExtends(base, r, p)
  }

  ghost predicate StreamExtends(base: Database, r: Database, p: nat)
    requires p < |r.projects|
  {
    var was, rows := Stream(base.events, p), Stream(r.events, p);
    var next := if p < |base.projects| then base.projects[p].nextPosition else 1;
    Consecutive(was, rows, next) && r.projects[p].nextPosition == next + |rows| - |was|
  }

  lemma CommitInOrder(base: Database, w: Work, p: nat)
    requires Valid(base) && Sound(base, w) && p < |w.db.projects|
    ensures InOrder(Commit(w), p) && StreamExtends(base, Commit(w), p)
  {
    assert StreamSound(base, w, p);
    if p < |base.projects| {
      assert InOrder(base, p) && base.projects[p] == w.db.projects[p];
    } else {
      NoRowsOfProject(base.events, p);
    }
    ConsecutiveInOrder(Stream(base.events, p), Stream(w.db.events, p), w.db.projects[p].nextPosition);
  }

  lemma ConsecutiveInOrder(was: seq<EventRow>, rows: seq<EventRow>, next: nat)
    requires Consecutive(was, rows, next) && Increasing(was) && Below(was, next)
    ensures Increasing(rows) && Below(rows, next + |rows| - |was|)
  {
    forall i | 0 <= i < |rows| ensures rows[i].position == if i < |was| then was[i].position else next + i - |was| {
      if i >= |was| {
        assert rows[|was| + (i - |was|)].position == next + (i - |was|);
      }
    }
  }

  lemma CommitIsSound(base: Database, w: Work)
    requires Valid(base) && Sound(base, w)
    ensures Valid(Commit(w)) && Extends(base, Commit(w))
  {
    var r := Commit(w);
    forall p | 0 <= p < |r.projects| ensures InOrder(r, p) && StreamExtends(base, r, p) {
      CommitInOrder(base, w, p);
    }
    assert forall p :: 0 <= p < |r.projects| ==> r.projects[p].path == w.db.projects[p].path;
    assert References(r);
  }

  /** Importing keeps every project, session, event and position, adds each offered id that was unknown
      exactly once (ids stay distinct), numbers the additions consecutively from each project's counter,
      and moves the counters past them. */
  lemma ImportIsConservative(db: Database, sources: seq<Source>)
    requires Valid(db) && Merged(db, sources).Ok?
    ensures
      var (r, imported) := Merged(db, sources).value;
      && Valid(r) && Extends(db, r)
      && KnownIds(r.events) == KnownIds(db.events) + OfferedIds(sources)
      && imported == Imported(|r.sessions| - |db.sessions|, |r.events| - |db.events|)
  {
    BeginIsSound(db);
    TakeSourcesIsSound(db, Begin(db), sources);
    CommitIsSound(db, TakeSources(Begin(db), sources).value);
  }

  // ---- What an imported row says ----

  /** Row numbers of one source stand for the target's project of that path and session of that key. */
  predicate MapsPaths(projects: seq<Project>, s: Source, pm: RowMap) {
    forall id :: id in pm ==>
      pm[id] < |projects| && exists sp :: sp in s.projects && sp.id == id && sp.path == projects[pm[id]].path
  }

  predicate SeatedAs(sessions: seq<Session>, pm: RowMap, ss: SourceSession, at: nat) {
    at < |sessions| && ss.project in pm && IsSession(sessions[at], pm[ss.project], ss.agent, ss.startedAt)
  }

  predicate MapsSessions(sessions: seq<Session>, s: Source, pm: RowMap, sm: RowMap) {
    forall id :: id in sm ==> exists ss :: ss in s.sessions && ss.id == id && SeatedAs(sessions, pm, ss, sm[id])
  }

  lemma {:induction false} ProjectMapPaths(projects: seq<Project>, rows: seq<SourceProject>, s: Source)
    requires rows <= s.projects
    ensures MapsPaths(projects, s, ProjectMap(projects, rows))
  {
    if rows != [] {
      ProjectMapPaths(projects, rows[..|rows| - 1], s);
      assert s.projects[|rows| - 1] in s.projects;
    }
  }

  lemma {:induction false} SessionMapSeats(sessions: seq<Session>, pm: RowMap, rows: seq<SourceSession>, s: Source)
    requires rows <= s.sessions
    ensures MapsSessions(sessions, s, pm, SessionMap(sessions, pm, rows))
  {
    if rows != [] {
      SessionMapSeats(sessions, pm, rows[..|rows| - 1], s);
      assert s.sessions[|rows| - 1] in s.sessions;
    }
  }

  /** Every column of a row but its project, session, payload and position is its event's. */
  predicate CarriesColumns(e: SourceEvent, row: EventRow) {
    && row.id == e.id && row.agentId == e.agentId && row.kind == e.kind && row.filePath == e.filePath
    && row.taskHint == e.taskHint && row.causedBy == e.causedBy && row.createdAt == e.createdAt
  }

  /** A payload that referred to another session than `to` keeps that reference, or else the row number `from` it
      came from, as its legacy session; its session reference, if it had one, is `to`; all else is as it was. */
  ghost predicate PointsTo(given: Payload, now: Payload, from: int, to: int) {
    var was := Get(given, "session_id");
    && (forall key :: key != "session_id" && key != "legacy_session_id" ==>
          (key in now <==> key in given) && (key in given ==> now[key] == given[key]))
    && ("session_id" in now <==> "session_id" in given) && ("session_id" in now ==> now["session_id"] == Num(to))
    && (was != Null && !EqualsInt(was, to) ==>
          "legacy_session_id" in now && now["legacy_session_id"] == was)
    && ((was == Null || EqualsInt(was, to)) && from != to ==>
          "legacy_session_id" in now && now["legacy_session_id"] == Num(from))
    && ((was == Null || EqualsInt(was, to)) && from == to ==>
          && ("legacy_session_id" in now <==> "legacy_session_id" in given)
          && ("legacy_session_id" in now ==> now["legacy_session_id"] == given["legacy_session_id"]))
  }

  /** Blank text reads as the empty object; text that is no object is carried over unread. */
  ghost predicate CarriesPayload(e: SourceEvent, row: EventRow) {
    match e.payload
    case Opaque => row.stored == None
    case Blank => row.stored.Some? && PointsTo(map[], row.stored.value, e.session, row.session)
    case Parsed(fields) => row.stored.Some? && PointsTo(fields, row.stored.value, e.session, row.session)
  }

  lemma RowCarriesEvent(e: SourceEvent, p: nat, session: nat, position: nat)
    ensures CarriesColumns(e, ImportedRow(e, p, session, position))
    ensures CarriesPayload(e, ImportedRow(e, p, session, position))
  {
    hide EqualsInt;
    assert "legacy_session_id"[0] != "session_id"[0];
  }

  lemma ImportedPlace(e: SourceEvent, p: nat, session: nat, position: nat)
    ensures ImportedRow(e, p, session, position).project == p && ImportedRow(e, p, session, position).session == session
  {
  }

  /** The columns and the payload determine the row. */
  lemma CarriedIsImported(e: SourceEvent, row: EventRow)
    requires CarriesColumns(e, row) && CarriesPayload(e, row)
    ensures row == ImportedRow(e, row.project, row.session, row.position)
  {
    hide EqualsInt;
    assert "legacy_session_id"[0] != "session_id"[0];
    var r := ImportedRow(e, row.project, row.session, row.position);
    RowCarriesEvent(e, row.project, row.session, row.position);
    if row.stored.Some? {
      forall key
        ensures (key in row.stored.value <==> key in r.stored.value)
                && (key in r.stored.value ==> row.stored.value[key] == r.stored.value[key])
      {
      }
      assert row.stored.value == r.stored.value;
    }
  }

  /** The row carries the event's columns and payload, sits in the project of the event's path, and in the session
      with the agent, start and project path of the event's session. */
  ghost predicate Mirrors(projects: seq<Project>, sessions: seq<Session>, s: Source, e: SourceEvent, row: EventRow) {
    && CarriesColumns(e, row) && CarriesPayload(e, row)
    && row.project < |projects| && row.session < |sessions|
    && (exists sp :: sp in s.projects && sp.id == e.project && sp.path == projects[row.project].path)
    && exists ss :: ss in s.sessions && ss.id == e.session && SessionMirrors(projects, sessions[row.session], s, ss)
  }

  predicate SessionMirrors(projects: seq<Project>, at: Session, s: Source, ss: SourceSession) {
    && at.agent == ss.agent && at.startedAt == ss.startedAt
    && at.project < |projects|
    && exists sp :: sp in s.projects && sp.id == ss.project && sp.path == projects[at.project].path
  }

  ghost predicate Faithful(projects: seq<Project>, sessions: seq<Session>, sources: seq<Source>, row: EventRow) {
    exists s, e :: s in sources && !s.skip && e in s.events && Mirrors(projects, sessions, s, e, row)
  }

  ghost predicate AllFaithful(n: nat, db: Database, sources: seq<Source>) {
    forall i :: n <= i < |db.events| ==> Faithful(db.projects, db.sessions, sources, db.events[i])
  }

  predicate SamePaths(projects: seq<Project>, r: seq<Project>) {
    |projects| <= |r| && forall p :: 0 <= p < |projects| ==> r[p].path == projects[p].path
  }

  lemma MirrorsKept(projects: seq<Project>, sessions: seq<Session>, projects': seq<Project>, sessions': seq<Session>,
                    s: Source, e: SourceEvent, row: EventRow)
    requires Mirrors(projects, sessions, s, e, row) && SamePaths(projects, projects') && sessions <= sessions'
    ensures Mirrors(projects', sessions', s, e, row)
  {
    var ss :| ss in s.sessions && ss.id == e.session && SessionMirrors(projects, sessions[row.session], s, ss);
    var sp :| sp in s.projects && sp.id == ss.project && sp.path == projects[sessions[row.session].project].path;
    assert SessionMirrors(projects', sessions'[row.session], s, ss);
  }

  lemma FaithfulKept(projects: seq<Project>, sessions: seq<Session>, projects': seq<Project>, sessions': seq<Session>,
                     sources: seq<Source>, sources': seq<Source>, row: EventRow)
    requires Faithful(projects, sessions, sources, row) && SamePaths(projects, projects') && sessions <= sessions'
    requires sources <= sources'
    ensures Faithful(projects', sessions', sources', row)
  {
    var s, e :| s in sources && !s.skip && e in s.events && Mirrors(projects, sessions, s, e, row);
    MirrorsKept(projects, sessions, projects', sessions', s, e, row);
    var i :| 0 <= i < |sources| && sources[i] == s;
    assert sources'[i] == s;
  }

  lemma TakeEventMirrors(w: Work, s: Source, pm: RowMap, sm: RowMap, e: SourceEvent)
    requires MapsPaths(w.db.projects, s, pm) && MapsSessions(w.db.sessions, s, pm, sm)
    requires e.id !in w.known && TakeEvent(w, pm, sm, e).Ok?
    ensures
      var r := TakeEvent(w, pm, sm, e).value;
      |r.db.events| == |w.db.events| + 1 && Mirrors(w.db.projects, w.db.sessions, s, e, r.db.events[|w.db.events|])
  {
    hide Counter, CarriesColumns, CarriesPayload, ImportedRow;
    RowCarriesEvent(e, pm[e.project], sm[e.session], Counter(w, pm[e.project]));
    ImportedPlace(e, pm[e.project], sm[e.session], Counter(w, pm[e.project]));
    var ss :| ss in s.sessions && ss.id == e.session && SeatedAs(w.db.sessions, pm, ss, sm[e.session]);
    assert SessionMirrors(w.db.projects, w.db.sessions[sm[e.session]], s, ss);
  }

  lemma {:induction false} TakeEventsFaithful(n: nat, w: Work, sources: seq<Source>, s: Source, pm: RowMap, sm: RowMap,
                                              rows: seq<SourceEvent>)
    requires MapsPaths(w.db.projects, s, pm) && MapsSessions(w.db.sessions, s, pm, sm)
    requires s in sources && !s.skip && rows <= s.events
    requires AllFaithful(n, w.db, sources) && TakeEvents(w, pm, sm, rows).Ok?
    ensures
      var r := TakeEvents(w, pm, sm, rows).value;
      AllFaithful(n, r.db, sources) && r.db.projects == w.db.projects && r.db.sessions == w.db.sessions
  {
    hide Faithful, MapsPaths, MapsSessions;
    if rows != [] {
      var front, e := rows[..|rows| - 1], rows[|rows| - 1];
      TakeEventsFaithful(n, w, sources, s, pm, sm, front);
      var before := TakeEvents(w, pm, sm, front).value;
      if e.id !in before.known {
        TakeEventMirrors(before, s, pm, sm, e);
        assert s.events[|rows| - 1] == e;
        var row := TakeEvent(before, pm, sm, e).value.db.events[|before.db.events|];
        MirrorsIsFaithful(w.db.projects, w.db.sessions, sources, s, e, row);
      }
    }
  }

  lemma MirrorsIsFaithful(projects: seq<Project>, sessions: seq<Session>, sources: seq<Source>, s: Source,
                          e: SourceEvent, row: EventRow)
    requires s in sources && !s.skip && e in s.events && Mirrors(projects, sessions, s, e, row)
    ensures Faithful(projects, sessions, sources, row)
  {
  }

  lemma PlacedFaithful(n: nat, w: Work, sources: seq<Source>, s: Source)
    requires DistinctPaths(w.db.projects) && AllFaithful(n, w.db, sources) && Placed(w, s).Ok?
    ensures AllFaithful(n, Placed(w, s).value.db, sources + [s])
  {
    hide Faithful;
    var r := Placed(w, s).value;
    ProjectsAfterSound(w.db.projects, s.projects);
    forall i | n <= i < |r.db.events| ensures Faithful(r.db.projects, r.db.sessions, sources + [s], r.db.events[i]) {
      FaithfulKept(w.db.projects, w.db.sessions, r.db.projects, r.db.sessions, sources, sources + [s], r.db.events[i]);
    }
  }

  lemma TakeSourceFaithful(base: Database, w: Work, sources: seq<Source>, s: Source)
    requires Valid(base) && Sound(base, w) && AllFaithful(|base.events|, w.db, sources) && TakeSource(w, s).Ok?
    ensures AllFaithful(|base.events|, TakeSource(w, s).value.db, sources + [s])
  {
    var n := |base.events|;
    if s.skip {
      hide Faithful;
      forall i | n <= i < |w.db.events| ensures Faithful(w.db.projects, w.db.sessions, sources + [s], w.db.events[i]) {
        FaithfulKept(w.db.projects, w.db.sessions, w.db.projects, w.db.sessions, sources, sources + [s],
                     w.db.events[i]);
      }
    } else {
      assert DistinctPaths(w.db.projects);
      hide Faithful, Sound, AllFaithful, Placed, MapsPaths, MapsSessions;
      PlacedFaithful(n, w, sources, s);
      var r := Placed(w, s).value;
      var pm := ProjectMap(r.db.projects, s.projects);
      var sm := SessionMap(r.db.sessions, pm, s.sessions);
      ProjectMapPaths(r.db.projects, s.projects, s);
      SessionMapSeats(r.db.sessions, pm, s.sessions, s);
      TakeEventsFaithful(n, r, sources + [s], s, pm, sm, s.events);
    }
  }

  lemma LastSource(w: Work, sources: seq<Source>)
    requires sources != [] && TakeSources(w, sources).Ok?
    ensures
      var before := TakeSources(w, sources[..|sources| - 1]);
      before.Ok? && TakeSources(w, sources) == TakeSource(before.value, sources[|sources| - 1])
  {
    hide TakeSource;
  }

  lemma NothingImportedYet(base: Database)
    ensures TakeSources(Begin(base), []) == Ok(Begin(base)) && AllFaithful(|base.events|, Begin(base).db, [])
  {
  }

  lemma {:induction false} TakeSourcesFaithful(base: Database, sources: seq<Source>)
    requires Valid(base) && TakeSources(Begin(base), sources).Ok?
    ensures AllFaithful(|base.events|, TakeSources(Begin(base), sources).value.db, sources)
  {
    hide AllFaithful, Sound, TakeSource, TakeSources, Valid, Begin;
    if sources == [] {
      NothingImportedYet(base);
    } else {
      var front := sources[..|sources| - 1];
      LastSource(Begin(base), sources);
      TakeSourcesFaithful(base, front);
      BeginIsSound(base);
      TakeSourcesIsSound(base, Begin(base), front);
      TakeSourceFaithful(base, TakeSources(Begin(base), front).value, front, sources[|sources| - 1]);
      assert front + [sources[|sources| - 1]] == sources;
    }
  }

  /** Every imported row mirrors an event of some source, its references resolved by path and session key. */
  lemma ImportIsFaithful(db: Database, sources: seq<Source>)
    requires Valid(db) && Merged(db, sources).Ok?
    ensures AllFaithful(|db.events|, Merged(db, sources).value.0, sources)
  {
    hide Faithful;
    TakeSourcesFaithful(db, sources);
    var w := TakeSources(Begin(db), sources).value;
    var r := Commit(w);
    forall i | |db.events| <= i < |r.events| ensures Faithful(r.projects, r.sessions, sources, r.events[i]) {
      FaithfulKept(w.db.projects, w.db.sessions, r.projects, r.sessions, sources, sources, r.events[i]);
    }
  }

  // ---- Sessions stay in their event's project ----

  predicate SourceFits(s: Source) {
    && (forall a, b :: a in s.projects && b in s.projects && a.id == b.id ==> a == b)
    && (forall e, ss :: e in s.events && ss in s.sessions && e.session == ss.id ==> e.project == ss.project)
  }

  predicate SessionFits(db: Database, row: EventRow) {
    row.session < |db.sessions| && db.sessions[row.session].project == row.project
  }

  predicate SessionsFit(db: Database) {
    forall i :: 0 <= i < |db.events| ==> SessionFits(db, db.events[i])
  }

  lemma MirrorFits(db: Database, s: Source, e: SourceEvent, row: EventRow)
    requires DistinctPaths(db.projects) && SourceFits(s) && e in s.events &&
             Mirrors(db.projects, db.sessions, s, e, row)
    ensures SessionFits(db, row)
  {
    var sp :| sp in s.projects && sp.id == e.project && sp.path == db.projects[row.project].path;
    var ss :| ss in s.sessions && ss.id == e.session && SessionMirrors(db.projects, db.sessions[row.session], s, ss);
    var at := db.sessions[row.session];
    var sp' :| sp' in s.projects && sp'.id == ss.project && sp'.path == db.projects[at.project].path;
    assert sp == sp';
  }

  /** Where the sources keep each event's session in the event's project, so does the target. */
  lemma ImportKeepsSessionsFit(db: Database, sources: seq<Source>)
    requires Valid(db) && Merged(db, sources).Ok? && SessionsFit(db)
    requires forall s :: s in sources && !s.skip ==> SourceFits(s)
    ensures SessionsFit(Merged(db, sources).value.0)
  {
    ImportIsConservative(db, sources);
    ImportIsFaithful(db, sources);
    var r := Merged(db, sources).value.0;
    hide Mirrors, Valid, Merged, SourceFits;
    forall i | 0 <= i < |r.events| ensures SessionFits(r, r.events[i]) {
      if i < |db.events| {
        assert SessionFits(db, db.events[i]);
      } else {
        assert Faithful(r.projects, r.sessions, sources, r.events[i]);
        var s, e :| s in sources && !s.skip && e in s.events && Mirrors(r.projects, r.sessions, s, e, r.events[i]);
        ValidPaths(r);
        MirrorFits(r, s, e, r.events[i]);
      }
    }
  }

  lemma ValidPaths(db: Database)
    requires Valid(db)
    ensures DistinctPaths(db.projects)
  {
  }

  // ---- A second run ----

  predicate Covers(projects: seq<Project>, sessions: seq<Session>, known: set<string>, s: Source) {
    && AllPlaced(projects, s.projects)
    && AllSeated(sessions, ProjectMap(projects, s.projects), s.sessions)
    && SourceIds(s.events) <= known
  }

  lemma {:induction false} PlacedAlready(projects: seq<Project>, rows: seq<SourceProject>)
    requires AllPlaced(projects, rows)
    ensures ProjectsAfter(projects, rows) == projects
  {
    if rows != [] {
      assert forall i :: 0 <= i < |rows| - 1 ==> rows[..|rows| - 1][i] == rows[i];
      PlacedAlready(projects, rows[..|rows| - 1]);
    }
  }

  lemma {:induction false} SeatedAlready(sessions: seq<Session>, pm: RowMap, rows: seq<SourceSession>)
    requires AllSeated(sessions, pm, rows)
    ensures SessionsAfter(sessions, pm, rows) == Ok(sessions)
  {
    hide FindSession;
    if rows != [] {
      assert forall i :: 0 <= i < |rows| - 1 ==> rows[..|rows| - 1][i] == rows[i];
      SeatedAlready(sessions, pm, rows[..|rows| - 1]);
    }
  }

  lemma {:induction false} KnownAlready(w: Work, pm: RowMap, sm: RowMap, rows: seq<SourceEvent>)
    requires SourceIds(rows) <= w.known
    ensures TakeEvents(w, pm, sm, rows) == Ok(w)
  {
    if rows != [] {
      SourceIdsSnoc(rows);
      KnownAlready(w, pm, sm, rows[..|rows| - 1]);
    }
  }

  lemma CoveredChangesNothing(w: Work, s: Source)
    requires s.skip || Covers(w.db.projects, w.db.sessions, w.known, s)
    ensures TakeSource(w, s) == Ok(w)
  {
    if !s.skip {
      var pm := ProjectMap(w.db.projects, s.projects);
      PlacedAlready(w.db.projects, s.projects);
      SeatedAlready(w.db.sessions, pm, s.sessions);
      KnownAlready(w, pm, SessionMap(w.db.sessions, pm, s.sessions), s.events);
    }
  }

  lemma {:induction false} AllPlacedAfter(projects: seq<Project>, rows: seq<SourceProject>)
    ensures AllPlaced(ProjectsAfter(projects, rows), rows)
  {
    if rows != [] {
      var front, path := rows[..|rows| - 1], rows[|rows| - 1].path;
      AllPlacedAfter(projects, front);
      var before := ProjectsAfter(projects, front);
      forall i | 0 <= i < |rows| ensures FindProject(ProjectsAfter(projects, rows), rows[i].path).Some? {
        FindProjectSnoc(before, Project(path, 1), rows[i].path);
        assert i < |front| ==> front[i] == rows[i];
      }
    }
  }

  lemma {:induction false} AllSeatedAfter(sessions: seq<Session>, pm: RowMap, rows: seq<SourceSession>)
    requires SessionsAfter(sessions, pm, rows).Ok?
    ensures AllSeated(SessionsAfter(sessions, pm, rows).value, pm, rows)
  {
    hide FindSession;
    if rows != [] {
      var front, row := rows[..|rows| - 1], rows[|rows| - 1];
      AllSeatedAfter(sessions, pm, front);
      var before, after := SessionsAfter(sessions, pm, front).value, SessionsAfter(sessions, pm, rows).value;
      var added := Session(pm[row.project], row.agent, row.startedAt);
      FindSessionSnoc(before, added, pm[row.project], row.agent, row.startedAt);
      SessionMapKept(before, added, pm, front);
      assert rows[..|rows|] == rows;
      SeatedSnoc(after, pm, rows, |rows| - 1);
    }
  }

  lemma {:induction false} FindProjectKept(projects: seq<Project>, r: seq<Project>, path: string)
    requires SamePaths(projects, r) && DistinctPaths(r) && FindProject(projects, path).Some?
    ensures FindProject(r, path) == FindProject(projects, path)
  {
  }

  lemma {:induction false} ProjectMapSame(projects: seq<Project>, r: seq<Project>, rows: seq<SourceProject>)
    requires SamePaths(projects, r) && DistinctPaths(r) && AllPlaced(projects, rows)
    ensures ProjectMap(r, rows) == ProjectMap(projects, rows) && AllPlaced(r, rows)
  {
    if rows != [] {
      hide FindProject;
      var front, last := rows[..|rows| - 1], rows[|rows| - 1];
      assert forall i :: 0 <= i < |front| ==> front[i] == rows[i];
      ProjectMapSame(projects, r, front);
      FindProjectKept(projects, r, last.path);
      assert forall i :: 0 <= i < |rows| ==> rows[i] == if i < |front| then front[i] else last;
    }
  }

  lemma {:induction false} FindSessionKept(sessions: seq<Session>, r: seq<Session>, p: nat, agent: string,
                                           startedAt: int)
    requires sessions <= r && FindSession(sessions, p, agent, startedAt).Some?
    ensures FindSession(r, p, agent, startedAt) == FindSession(sessions, p, agent, startedAt)
    decreases |r|
  {
    if |r| == |sessions| {
      assert r == sessions;
    } else {
      FindSessionKept(sessions, r[..|r| - 1], p, agent, startedAt);
    }
  }

  lemma CoversKept(projects: seq<Project>, sessions: seq<Session>, known: set<string>,
                   projects': seq<Project>, sessions': seq<Session>, known': set<string>, s: Source)
    requires Covers(projects, sessions, known, s)
    requires SamePaths(projects, projects') && DistinctPaths(projects') && sessions <= sessions' && known <= known'
    ensures Covers(projects', sessions', known', s)
  {
    hide FindSession;
    var pm := ProjectMap(projects, s.projects);
    ProjectMapSame(projects, projects', s.projects);
    forall i | 0 <= i < |s.sessions|
      ensures s.sessions[i].project in pm &&
              FindSession(sessions', pm[s.sessions[i].project], s.sessions[i].agent, s.sessions[i].startedAt).Some?
    {
      var row := s.sessions[i];
      FindSessionKept(sessions, sessions', pm[row.project], row.agent, row.startedAt);
    }
  }

  lemma TakenIsCovered(base: Database, w: Work, s: Source)
    requires Valid(base) && Sound(base, w) && !s.skip && TakeSource(w, s).Ok?
    ensures var r := TakeSource(w, s).value; Covers(r.db.projects, r.db.sessions, r.known, s)
  {
    TakeSourceIsSound(base, w, s);
    AllPlacedAfter(w.db.projects, s.projects);
    AllSeatedAfter(w.db.sessions, ProjectMap(Placed(w, s).value.db.projects, s.projects), s.sessions);
  }

  predicate AllCovered(w: Work, sources: seq<Source>) {
    forall i :: 0 <= i < |sources| ==> sources[i].skip || Covers(w.db.projects, w.db.sessions, w.known, sources[i])
  }

  lemma TakeSourceGrows(base: Database, w: Work, s: Source)
    requires Valid(base) && Sound(base, w) && TakeSource(w, s).Ok?
    ensures
      var r := TakeSource(w, s).value;
      && SamePaths(w.db.projects, r.db.projects) && DistinctPaths(r.db.projects)
      && w.db.sessions <= r.db.sessions && w.known <= r.known
  {
    TakeSourceIsSound(base, w, s);
    if !s.skip {
      ProjectsAfterSound(w.db.projects, s.projects);
    }
  }

  lemma StillCovered(w: Work, r: Work, sources: seq<Source>, s: Source)
    requires AllCovered(w, sources)
    requires SamePaths(w.db.projects, r.db.projects) && DistinctPaths(r.db.projects)
    requires w.db.sessions <= r.db.sessions && w.known <= r.known
    requires s.skip || Covers(r.db.projects, r.db.sessions, r.known, s)
    ensures AllCovered(r, sources + [s])
  {
    hide Covers, SamePaths, DistinctPaths;
    forall i | 0 <= i < |sources| && !sources[i].skip
      ensures Covers(r.db.projects, r.db.sessions, r.known, sources[i])
    {
      CoversKept(w.db.projects, w.db.sessions, w.known, r.db.projects, r.db.sessions, r.known, sources[i]);
    }
  }

  lemma CoveredStep(base: Database, w: Work, sources: seq<Source>, s: Source)
    requires Valid(base) && Sound(base, w) && AllCovered(w, sources) && TakeSource(w, s).Ok?
    ensures AllCovered(TakeSource(w, s).value, sources + [s])
  {
    hide Sound, Covers, TakeSource, SamePaths, DistinctPaths, AllCovered, Valid;
    TakeSourceGrows(base, w, s);
    if !s.skip {
      TakenIsCovered(base, w, s);
    }
    StillCovered(w, TakeSource(w, s).value, sources, s);
  }

  lemma NothingToCover(w: Work)
    ensures AllCovered(w, [])
  {
  }

  lemma {:induction false} AllTakenCovered(base: Database, sources: seq<Source>)
    requires Valid(base) && TakeSources(Begin(base), sources).Ok?
    ensures AllCovered(TakeSources(Begin(base), sources).value, sources)
  {
    hide Sound, TakeSource, TakeSources, AllCovered, Covers, Valid, Begin;
    if sources == [] {
      NothingToCover(TakeSources(Begin(base), sources).value);
    } else {
      var front, s := sources[..|sources| - 1], sources[|sources| - 1];
      LastSource(Begin(base), sources);
      AllTakenCovered(base, front);
      BeginIsSound(base);
      TakeSourcesIsSound(base, Begin(base), front);
      assert sources == front + [s];
      CoveredStep(base, TakeSources(Begin(base), front).value, front, s);
    }
  }

  lemma {:induction false} CoveredSources(w: Work, sources: seq<Source>)
    requires AllCovered(w, sources)
    ensures TakeSources(w, sources) == Ok(w)
  {
    if sources != [] {
      hide Covers, TakeSource;
      var front := sources[..|sources| - 1];
      assert forall i :: 0 <= i < |front| ==> front[i] == sources[i];
      CoveredSources(w, front);
      CoveredChangesNothing(w, sources[|sources| - 1]);
    }
  }

  /** Importing the same sources again imports nothing and leaves the tables as they are. */
  lemma SecondImportChangesNothing(db: Database, sources: seq<Source>)
    requires Valid(db) && Merged(db, sources).Ok?
    ensures var r := Merged(db, sources).value.0;
      Merged(r, sources) == Ok((r, Imported(0, 0)))
  {
    hide Covers, Sound, TakeSources, Valid;
    var w := TakeSources(Begin(db), sources).value;
    var r := Commit(w);
    BeginIsSound(db);
    TakeSourcesIsSound(db, Begin(db), sources);
    SoundBasics(db, w);
    AllTakenCovered(db, sources);
    forall i | 0 <= i < |sources| && !sources[i].skip
      ensures Covers(r.projects, r.sessions, KnownIds(r.events), sources[i])
    {
      CoversKept(w.db.projects, w.db.sessions, w.known, r.projects, r.sessions, KnownIds(r.events), sources[i]);
    }
    CoveredSources(Begin(r), sources);
    assert WithCounters(Begin(r)) == r.projects;
  }

  lemma SoundBasics(base: Database, w: Work)
    requires Sound(base, w)
    ensures w.known == KnownIds(w.db.events)
    ensures SamePaths(w.db.projects, Commit(w).projects) && DistinctPaths(Commit(w).projects)
  {
    assert forall p :: 0 <= p < |w.db.projects| ==> Commit(w).projects[p].path == w.db.projects[p].path;
  }

  // ---- When an import cannot fail ----

  predicate Closed(s: Source) {
    && (forall ss :: ss in s.sessions ==> exists sp :: sp in s.projects && sp.id == ss.project)
    && (forall e :: e in s.events ==> exists sp :: sp in s.projects && sp.id == e.project)
    && (forall e :: e in s.events ==> exists ss :: ss in s.sessions && ss.id == e.session)
  }

  lemma {:induction false} ProjectMapDomain(projects: seq<Project>, rows: seq<SourceProject>, sp: SourceProject)
    requires AllPlaced(projects, rows) && sp in rows
    ensures sp.id in ProjectMap(projects, rows)
  {
    var front := rows[..|rows| - 1];
    assert forall i :: 0 <= i < |front| ==> front[i] == rows[i];
    assert rows == front + [rows[|rows| - 1]];
    if sp in front {
      ProjectMapDomain(projects, front, sp);
    }
  }

  lemma {:induction false} SessionMapDomain(sessions: seq<Session>, pm: RowMap, rows: seq<SourceSession>,
                                            ss: SourceSession)
    requires AllSeated(sessions, pm, rows) && ss in rows
    ensures ss.id in SessionMap(sessions, pm, rows)
  {
    var front := rows[..|rows| - 1];
    assert forall i :: 0 <= i < |front| ==> front[i] == rows[i];
    assert rows == front + [rows[|rows| - 1]];
    if ss in front {
      SessionMapDomain(sessions, pm, front, ss);
    }
  }

  lemma {:induction false} SessionsSucceed(sessions: seq<Session>, pm: RowMap, rows: seq<SourceSession>)
    requires forall ss :: ss in rows ==> ss.project in pm
    ensures SessionsAfter(sessions, pm, rows).Ok?
  {
    if rows != [] {
      assert rows == rows[..|rows| - 1] + [rows[|rows| - 1]];
      SessionsSucceed(sessions, pm, rows[..|rows| - 1]);
    }
  }

  lemma {:induction false} EventsSucceed(w: Work, pm: RowMap, sm: RowMap, rows: seq<SourceEvent>)
    requires forall e :: e in rows ==> e.project in pm && e.session in sm
    ensures TakeEvents(w, pm, sm, rows).Ok?
  {
    if rows != [] {
      assert rows == rows[..|rows| - 1] + [rows[|rows| - 1]];
      EventsSucceed(w, pm, sm, rows[..|rows| - 1]);
    }
  }

  lemma ClosedSourceSucceeds(w: Work, s: Source)
    requires s.skip || Closed(s)
    ensures TakeSource(w, s).Ok?
  {
    if !s.skip {
      var projects := ProjectsAfter(w.db.projects, s.projects);
      var pm := ProjectMap(projects, s.projects);
      AllPlacedAfter(w.db.projects, s.projects);
      forall sp | sp in s.projects ensures sp.id in pm {
        ProjectMapDomain(projects, s.projects, sp);
      }
      SessionsSucceed(w.db.sessions, pm, s.sessions);
      var sessions := SessionsAfter(w.db.sessions, pm, s.sessions).value;
      AllSeatedAfter(w.db.sessions, pm, s.sessions);
      forall ss | ss in s.sessions ensures ss.id in SessionMap(sessions, pm, s.sessions) {
        SessionMapDomain(sessions, pm, s.sessions, ss);
      }
      EventsSucceed(Placed(w, s).value, pm, SessionMap(sessions, pm, s.sessions), s.events);
    }
  }

  /** Sources whose rows refer only to rows they hold are always imported. */
  lemma {:induction false} ClosedSourcesMerge(db: Database, sources: seq<Source>)
    requires forall s :: s in sources && !s.skip ==> Closed(s)
    ensures Merged(db, sources).Ok?
    ensures TakeSources(Begin(db), sources).Ok?
  {
    if sources != [] {
      hide TakeSource, Closed, Begin;
      var front := sources[..|sources| - 1];
      assert sources == front + [sources[|sources| - 1]];
      ClosedSourcesMerge(db, front);
      ClosedSourceSucceeds(TakeSources(Begin(db), front).value, sources[|sources| - 1]);
    }
  }
}
