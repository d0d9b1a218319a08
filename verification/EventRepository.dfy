/** The append-only event table (`storage/event_repository.py`): positions, hash chain, queries. */
module EventRepository {
  import opened Wrappers
  import opened Json
  import opened Events
  import opened Sequences
  import opened Integrity

  datatype Project = Project(path: string, nextPosition: nat)

  datatype Session = Session(project: nat, agent: string, startedAt: int)

  datatype EventRow = EventRow(
    id: string, project: nat, session: nat, agentId: Option<string>, kind: EventType, filePath: Option<string>,
    stored: Stored, taskHint: Option<string>, causedBy: Option<string>, createdAt: int, position: nat)

  // Project and session ids are row numbers.
  datatype Database = Database(projects: seq<Project>, sessions: seq<Session>, events: seq<EventRow>)

  datatype RepoError =
    | UnknownSession | UnknownCause | SessionNotInProject | DuplicateId
    | UnknownCursor | CursorNotInProject | BadBatchSize

  datatype Draft = Draft(
    id: string, path: string, session: nat, agentId: Option<string>, kind: EventType, filePath: Option<string>,
    payload: Json, taskHint: Option<string>, causedBy: Option<string>, createdAt: int)

  function FindProject(projects: seq<Project>, path: string): (r: Option<nat>)
    ensures r.Some? ==> r.value < |projects| && projects[r.value].path == path
    ensures r.None? ==> forall i :: 0 <= i < |projects| ==> projects[i].path != path
  {
    if projects == [] then None
    else if projects[|projects| - 1].path == path then Some(|projects| - 1)
    else FindProject(projects[..|projects| - 1], path)
  }

  function FindEvent(events: seq<EventRow>, id: string): (r: Option<nat>)
    ensures r.Some? ==> r.value < |events| && events[r.value].id == id
    ensures r.None? ==> forall i :: 0 <= i < |events| ==> events[i].id != id
  {
    if events == [] then None
    else if events[|events| - 1].id == id then Some(|events| - 1)
    else FindEvent(events[..|events| - 1], id)
  }

  // ---- Queries in stream order ----

  /** Rows of a project past `lo` and up to `hi`, where given. */
  function Selects(p: nat, lo: Option<nat>, hi: Option<nat>): EventRow -> bool {
    (row: EventRow) => row.project == p && (lo.Some? ==> row.position > lo.value) &&
      (hi.Some? ==> row.position <= hi.value)
  }

  function Select(events: seq<EventRow>, p: nat, lo: Option<nat>, hi: Option<nat>): seq<EventRow> {
    Filter(Selects(p, lo, hi), events)
  }

  /** All rows of a project, oldest first. */
  function Stream(events: seq<EventRow>, p: nat): seq<EventRow> {
    Select(events, p, None, None)
  }

  function PayloadsOf(rows: seq<EventRow>): (r: seq<Stored>)
    ensures |r| == |rows| && forall i :: 0 <= i < |rows| ==> r[i] == rows[i].stored
  {
    seq(|rows|, i requires 0 <= i < |rows| => rows[i].stored)
  }

  function Take<T>(s: seq<T>, limit: Option<nat>): seq<T> {
    if limit.Some? && limit.value < |s| then s[..limit.value] else s
  }

  // ---- Validity ----

  predicate Increasing(rows: seq<EventRow>) {
    forall i, j :: 0 <= i < j < |rows| ==> rows[i].position < rows[j].position
  }

  predicate Below(rows: seq<EventRow>, next: nat) {
    forall i :: 0 <= i < |rows| ==> rows[i].position < next
  }

  predicate DistinctRowIds(events: seq<EventRow>) {
    forall i, j :: 0 <= i < j < |events| ==> events[i].id != events[j].id
  }

  predicate DistinctPaths(projects: seq<Project>) {
    forall i, j :: 0 <= i < j < |projects| ==> projects[i].path != projects[j].path
  }

  predicate References(db: Database) {
    && (forall i :: 0 <= i < |db.sessions| ==> db.sessions[i].project < |db.projects|)
    && (forall i :: 0 <= i < |db.events| ==>
        db.events[i].project < |db.projects| && db.events[i].session < |db.sessions|)
  }

  predicate InOrder(db: Database, p: nat)
    requires p < |db.projects|
  {
    Increasing(Stream(db.events, p)) && Below(Stream(db.events, p), db.projects[p].nextPosition)
  }

  /** Keys are unique and each project's rows stand in position order below its counter. */
  predicate Valid(db: Database) {
    && DistinctPaths(db.projects)
    && DistinctRowIds(db.events)
    && References(db)
    && forall p :: 0 <= p < |db.projects| ==> InOrder(db, p)
  }

  // ---- Append ----

  /** A payload that is not an object is wrapped. */
  function Body(payload: Json): Payload {
    if payload.Obj? then payload.fields else map["value" := payload]
  }

  function LatestHash(events: seq<EventRow>, p: nat): Option<string> {
    var rows := Stream(events, p);
    if rows == [] then None else ExtractStored(rows[|rows| - 1].stored)
  }

  /** Why an append is refused, if so. */
  function Refusal(db: Database, d: Draft): Option<RepoError> {
    var p := FindProject(db.projects, d.path);
    if d.session >= |db.sessions| then Some(UnknownSession)
    else if d.causedBy.Some? && FindEvent(db.events, d.causedBy.value).None? then Some(UnknownCause)
    else if p.None? || db.sessions[d.session].project != p.value then Some(SessionNotInProject)
    else if FindEvent(db.events, d.id).Some? then Some(DuplicateId)
    else None
  }

  function NewRow(h: Digest, db: Database, d: Draft, p: nat): EventRow
    requires p < |db.projects| && d.session < |db.sessions|
  {
    EventRow(
      d.id, p, d.session,
      if d.agentId.Some? && d.agentId.value != "" then d.agentId else Some(db.sessions[d.session].agent),
      d.kind, d.filePath, Some(Attach(h, Body(d.payload), LatestHash(db.events, p))),
      d.taskHint, d.causedBy, d.createdAt, db.projects[p].nextPosition)
  }

  function Bump(projects: seq<Project>, p: nat): seq<Project>
    requires p < |projects|
  {
    projects[p := projects[p].(nextPosition := projects[p].nextPosition + 1)]
  }

  function Append(h: Digest, db: Database, d: Draft): Database {
    if Refusal(db, d).Some? then db
    else
      var p := FindProject(db.projects, d.path).value;
      Database(Bump(db.projects, p), db.sessions, db.events + [NewRow(h, db, d, p)])
  }

  function AppendAll(h: Digest, db: Database, ds: seq<Draft>): Database {
    if ds == [] then db else Append(h, AppendAll(h, db, ds[..|ds| - 1]), ds[|ds| - 1])
  }

  // ---- What a row says of its draft ----

  /** The stored payload is the given one, its own integrity fields replaced: every key but `_meta` and the hash as
      given, no hash beside them, and under `_meta` what was given there plus the hash. */
  ghost predicate StoresFields(stored: Payload, given: Payload) {
    && HASH_KEY !in stored
    && (forall key :: key != META_KEY && key != HASH_KEY ==>
          (key in stored <==> key in given) && (key in given ==> stored[key] == given[key]))
    && META_KEY in stored && stored[META_KEY].Obj?
    && forall key :: key != HASH_KEY ==>
         var meta, was := stored[META_KEY].fields, Get(given, META_KEY);
         && (key in meta <==> was.Obj? && key in was.fields)
         && (key in meta ==> meta[key] == was.fields[key])
  }

  /** A payload that is no object is stored under `value`. */
  ghost predicate StoresPayload(stored: Stored, payload: Json) {
    && stored.Some?
    && StoresFields(stored.value, match payload case Obj(fields) => fields case _ => map["value" := payload])
  }

  /** Every column of a row is its draft's; the agent is the draft's when it names one, else its session's. */
  ghost predicate RecordsDraft(row: EventRow, d: Draft, sessionAgent: string) {
    && row.id == d.id && row.session == d.session && row.kind == d.kind
    && row.filePath == d.filePath && row.taskHint == d.taskHint && row.causedBy == d.causedBy
    && row.createdAt == d.createdAt
    && row.agentId == (if d.agentId == None || d.agentId == Some("") then Some(sessionAgent) else d.agentId)
    && StoresPayload(row.stored, d.payload)
  }

  lemma AttachStores(h: Digest, p: Payload, prev: Option<string>)
    ensures StoresFields(Attach(h, p, prev), p)
  {
    KeysDiffer();
    hide Compute;
    var body, out := Strip(p), Attach(h, p, prev);
    var digest := Compute(h, prev, body);
    assert out == body[META_KEY := Obj(MetaOf(body)[HASH_KEY := Str(digest)])];
    StripKeepsFields(p);
  }

  lemma StripKeepsFields(p: Payload)
    ensures HASH_KEY !in Strip(p)
    ensures forall key :: key != META_KEY && key != HASH_KEY ==>
      (key in Strip(p) <==> key in p) && (key in p ==> Strip(p)[key] == p[key])
    ensures MetaOf(Strip(p)) == MetaOf(p) - {HASH_KEY}
  {
    KeysDiffer();
  }

  lemma NewRowRecords(h: Digest, db: Database, d: Draft, p: nat)
    requires p < |db.projects| && d.session < |db.sessions|
    ensures RecordsDraft(NewRow(h, db, d, p), d, db.sessions[d.session].agent)
  {
    hide Attach, StoresFields, LatestHash;
    AttachStores(h, Body(d.payload), LatestHash(db.events, p));
  }

  /** An append is refused exactly when its session, its cause or its project is not there, the session belongs to
      another project, or the id is taken; the first of these is the error. */
  lemma RefusedExactly(db: Database, d: Draft)
    requires Valid(db)
    ensures
      var seated := d.session < |db.sessions|;
      var caused := d.causedBy.None? || exists i :: 0 <= i < |db.events| && Some(db.events[i].id) == d.causedBy;
      var owned := seated && db.sessions[d.session].project < |db.projects|
                   && db.projects[db.sessions[d.session].project].path == d.path;
      var unused := forall i :: 0 <= i < |db.events| ==> db.events[i].id != d.id;
      && (!seated <==> Refusal(db, d) == Some(UnknownSession))
      && (seated && !caused <==> Refusal(db, d) == Some(UnknownCause))
      && (seated && caused && !owned <==> Refusal(db, d) == Some(SessionNotInProject))
      && (seated && caused && owned && !unused <==> Refusal(db, d) == Some(DuplicateId))
      && (seated && caused && owned && unused <==> Refusal(db, d) == None)
  {
    hide InOrder;
    if d.session < |db.sessions| {
      var q := db.sessions[d.session].project;
      assert q < |db.projects|;
    }
  }

  // ---- Lookups ----

  function CursorPosition(db: Database, p: nat, id: string): Result<nat, RepoError> {
    var at := FindEvent(db.events, id);
    if at.None? then Err(UnknownCursor)
    else if db.events[at.value].project != p then Err(CursorNotInProject)
    else Ok(db.events[at.value].position)
  }

  function OptionalCursor(db: Database, p: nat, id: Option<string>): Result<Option<nat>, RepoError> {
    if id.None? then Ok(None)
    else
      var r := CursorPosition(db, p, id.value);
      if r.Err? then Err(r.error) else Ok(Some(r.value))
  }

  function After(db: Database, path: string, cursor: Option<string>, through: Option<string>, limit: Option<nat>)
    : Result<seq<EventRow>, RepoError>
  {
    var project := FindProject(db.projects, path);
    if project.None? then Ok([])
    else
      var p := project.value;
      var lo, hi := OptionalCursor(db, p, cursor), OptionalCursor(db, p, through);
      if lo.Err? then Err(lo.error)
      else if hi.Err? then Err(hi.error)
      else Ok(Take(Select(db.events, p, lo.value, hi.value), limit))
  }

  /** `list_events`: the last `limit` matching rows of the project, oldest first. */
  function Latest(db: Database, path: string, keep: EventRow -> bool, limit: nat): seq<EventRow> {
    var project := FindProject(db.projects, path);
    if project.None? then []
    else
      var rows := Filter(keep, Stream(db.events, project.value));
      if |rows| > limit then rows[|rows| - limit..] else rows
  }

  datatype RawPage = RawPage(rows: seq<EventRow>, hasMore: bool)

  /** `list_events_paginated`: one extra row tells whether more follow. */
  function Paginated(db: Database, path: string, keep: EventRow -> bool, cursor: Option<string>, limit: nat)
    : Result<RawPage, RepoError>
  {
    var project := FindProject(db.projects, path);
    if project.None? then Ok(RawPage([], false))
    else
      var lo := OptionalCursor(db, project.value, cursor);
      if lo.Err? then Err(lo.error)
      else
        var rows := Filter(keep, Select(db.events, project.value, lo.value, None));
        Ok(if |rows| > limit then RawPage(rows[..limit], true) else RawPage(rows, false))
  }

  // ---- What a query returns ----

  /** A cursor stands at the row of its id: unknown if no row bears it, foreign if that row is another project's. */
  lemma CursorIsRow(db: Database, p: nat, id: string)
    requires DistinctRowIds(db.events)
    ensures CursorPosition(db, p, id) == Err(UnknownCursor) <==> forall row :: row in db.events ==> row.id != id
    ensures forall row :: row in db.events && row.id == id ==>
      CursorPosition(db, p, id) == if row.project == p then Ok(row.position) else Err(CursorNotInProject)
  {
    var at := FindEvent(db.events, id);
    if at.Some? {
      assert db.events[at.value] in db.events;
    }
  }

  predicate Past(row: EventRow, db: Database, cursor: Option<string>) {
    cursor.Some? ==> exists i :: 0 <= i < |db.events| && db.events[i].id == cursor.value
                                 && db.events[i].project == row.project && db.events[i].position < row.position
  }

  predicate UpTo(row: EventRow, db: Database, through: Option<string>) {
    through.Some? ==> exists i :: 0 <= i < |db.events| && db.events[i].id == through.value
                                  && db.events[i].project == row.project && row.position <= db.events[i].position
  }

  /** Without a limit a query returns exactly the project's rows past the one cursor and up to the other, in position
      order; with a limit, the first so many of them. */
  lemma QueryReturns(db: Database, path: string, cursor: Option<string>, through: Option<string>, limit: nat,
                     row: EventRow)
    requires Valid(db) && After(db, path, cursor, through, None).Ok?
    ensures
      var all := After(db, path, cursor, through, None).value;
      && (row in all <==>
            && row in db.events && row.project < |db.projects| && db.projects[row.project].path == path
            && Past(row, db, cursor) && UpTo(row, db, through))
      && After(db, path, cursor, through, Some(limit)) == Ok(if limit < |all| then all[..limit] else all)
  {
    hide InOrder;
    var project := FindProject(db.projects, path);
    if project.Some? {
      var p := project.value;
      var lo, hi := OptionalCursor(db, p, cursor), OptionalCursor(db, p, through);
      FilterMember(Selects(p, lo.value, hi.value), db.events, row);
      CursorBounds(db, p, cursor);
      CursorBounds(db, p, through);
    }
  }

  lemma CursorBounds(db: Database, p: nat, cursor: Option<string>)
    requires DistinctRowIds(db.events) && OptionalCursor(db, p, cursor).Ok?
    ensures forall row: EventRow :: row.project == p ==>
      var at := OptionalCursor(db, p, cursor).value;
      && (Past(row, db, cursor) <==> (at.Some? ==> row.position > at.value))
      && (UpTo(row, db, cursor) <==> (at.Some? ==> row.position <= at.value))
  {
    if cursor.Some? {
      var i := FindEvent(db.events, cursor.value).value;
      assert db.events[i].id == cursor.value && db.events[i].project == p;
      assert forall j :: 0 <= j < |db.events| && db.events[j].id == cursor.value ==> j == i;
    }
  }

  // ---- Facts about appends ----

  lemma SelectSnoc(events: seq<EventRow>, row: EventRow, p: nat, lo: Option<nat>, hi: Option<nat>)
    ensures Select(events + [row], p, lo, hi) ==
            Select(events, p, lo, hi) + (if Selects(p, lo, hi)(row) then [row] else [])
  {
    FilterSnoc(Selects(p, lo, hi), events, row);
  }

  lemma StreamMember(events: seq<EventRow>, p: nat, row: EventRow)
    ensures row in Stream(events, p) <==> row in events && row.project == p
  {
    FilterMember(Selects(p, None, None), events, row);
  }

  lemma SameIdSameIndex(events: seq<EventRow>, i: nat)
    requires DistinctRowIds(events) && i < |events|
    ensures FindEvent(events, events[i].id) == Some(i)
  {
  }

  lemma AppendInOrder(db: Database, r: Database, p: nat, q: nat, row: EventRow)
    requires p < |db.projects| && q < |db.projects| && InOrder(db, q)
    requires row.project == p && row.position == db.projects[p].nextPosition
    requires r.projects == Bump(db.projects, p) && r.events == db.events + [row]
    ensures InOrder(r, q)
  {
    hide Stream;
    StreamSnoc(db.events, row, q);
  }

  lemma StreamSnoc(events: seq<EventRow>, row: EventRow, p: nat)
    ensures Stream(events + [row], p) == Stream(events, p) + (if row.project == p then [row] else [])
  {
    SelectSnoc(events, row, p, None, None);
  }

  lemma BumpDistinct(projects: seq<Project>, p: nat)
    requires p < |projects| && DistinctPaths(projects)
    ensures DistinctPaths(Bump(projects, p))
  {
    assert forall i :: 0 <= i < |projects| ==> Bump(projects, p)[i].path == projects[i].path;
  }

  lemma {:induction false} BumpKeepsPaths(projects: seq<Project>, p: nat, path: string)
    requires p < |projects|
    ensures FindProject(Bump(projects, p), path) == FindProject(projects, path)
  {
    var last := |projects| - 1;
    if projects[last].path != path {
      if p < last {
        assert Bump(projects, p)[..last] == Bump(projects[..last], p);
        BumpKeepsPaths(projects[..last], p, path);
      } else {
        assert Bump(projects, p)[..last] == projects[..last];
      }
    }
  }

  /** Appending keeps the table valid. */
  lemma AppendValid(h: Digest, db: Database, d: Draft)
    requires Valid(db)
    ensures Valid(Append(h, db, d))
  {
    if Refusal(db, d).None? {
      var p := FindProject(db.projects, d.path).value;
      var row := NewRow(h, db, d, p);
      var r := Append(h, db, d);
      forall q | 0 <= q < |r.projects| ensures InOrder(r, q) {
        assert InOrder(db, q);
        AppendInOrder(db, r, p, q, row);
      }
      BumpDistinct(db.projects, p);
      assert DistinctRowIds(r.events) by {
        hide References, DistinctPaths, InOrder, NewRow;
      }
      assert References(r) by {
        hide InOrder, DistinctPaths, DistinctRowIds;
      }
    }
  }

  lemma {:induction false} AppendAllValid(h: Digest, db: Database, ds: seq<Draft>)
    requires Valid(db)
    ensures Valid(AppendAll(h, db, ds))
  {
    if ds != [] {
      AppendAllValid(h, db, ds[..|ds| - 1]);
      AppendValid(h, AppendAll(h, db, ds[..|ds| - 1]), ds[|ds| - 1]);
    }
  }

  lemma PrefixIncreasing(events: seq<EventRow>, p: nat, n: nat)
    requires n <= |events| && Increasing(Stream(events, p))
    ensures Increasing(Stream(events[..n], p))
  {
    assert events == events[..n] + events[n..];
    FilterConcat(Selects(p, None, None), events[..n], events[n..]);
    var head, whole := Stream(events[..n], p), Stream(events, p);
    assert forall i :: 0 <= i < |head| ==> head[i] == whole[i];
  }

  // ---- The queries as the database runs them ----

  /** `ORDER BY stream_position DESC LIMIT 1` over a project's rows. */
  method HighestRow(events: seq<EventRow>, p: nat) returns (best: Option<nat>)
    requires Increasing(Stream(events, p))
    ensures best.None? <==> Stream(events, p) == []
    ensures best.Some? ==> best.value < |events| && events[best.value] == Stream(events, p)[|Stream(events, p)| - 1]
  {
    best := None;
    for i := 0 to |events|
      invariant best.None? <==> Stream(events[..i], p) == []
      invariant best.Some? ==> best.value < i
      invariant best.Some? ==> events[best.value] == Stream(events[..i], p)[|Stream(events[..i], p)| - 1]
    {
      assert events[..i + 1] == events[..i] + [events[i]];
      SelectSnoc(events[..i], events[i], p, None, None);
      PrefixIncreasing(events, p, i + 1);
      ghost var rows := Stream(events[..i + 1], p);
      assert |rows| >= 2 ==> rows[|rows| - 2].position < rows[|rows| - 1].position;
      if events[i].project == p && (best.None? || events[best.value].position < events[i].position) {
        best := Some(i);
      }
    }
    assert events[..|events|] == events;
  }

  method SelectRows(events: seq<EventRow>, p: nat, lo: Option<nat>, hi: Option<nat>, limit: Option<nat>)
    returns (rows: seq<EventRow>)
    ensures rows == Take(Select(events, p, lo, hi), limit)
  {
    rows := [];
    for i := 0 to |events|
      invariant rows == Take(Select(events[..i], p, lo, hi), limit)
    {
      assert events[..i + 1] == events[..i] + [events[i]];
      SelectSnoc(events[..i], events[i], p, lo, hi);
      if Selects(p, lo, hi)(events[i]) && (limit.None? || |rows| < limit.value) {
        rows := rows + [events[i]];
      }
    }
    assert events[..|events|] == events;
  }

  method PositionsOf(rows: seq<EventRow>, indices: seq<nat>) returns (positions: seq<nat>)
    requires forall k :: 0 <= k < |indices| ==> indices[k] < |rows|
    ensures |positions| == |indices| && forall k :: 0 <= k < |indices| ==> positions[k] == rows[indices[k]].position
  {
    positions := [];
    for i := 0 to |indices|
      invariant |positions| == i && forall k :: 0 <= k < i ==> positions[k] == rows[indices[k]].position
    {
      positions := positions + [rows[indices[i]].position];
    }
  }

  /** The repository object over the three tables. */
  class Repository {
    const digest: Digest
    var projects: seq<Project>
    var sessions: seq<Session>
    var events: seq<EventRow>

    function Db(): Database
      reads this
    {
      Database(projects, sessions, events)
    }

    constructor (h: Digest, db: Database)
      ensures digest == h && Db() == db
    {
      digest, projects, sessions, events := h, db.projects, db.sessions, db.events;
    }

    /** The hash stored with the row of the highest position in the project. */
    method LatestIntegrityHash(p: nat) returns (hash: Option<string>)
      requires Valid(Db()) && p < |projects|
      ensures hash == LatestHash(events, p)
    {
      assert InOrder(Db(), p);
      var best := HighestRow(events, p);
      if best.None? {
        return None;
      }
      return ExtractStored(events[best.value].stored);
    }

    method AppendEvent(d: Draft) returns (out: Result<EventRow, RepoError>)
      requires Valid(Db())
      modifies this
      ensures Valid(Db()) && Db() == Append(digest, old(Db()), d)
      ensures out.Err? <==> Refusal(old(Db()), d).Some?
      ensures out.Err? ==> out.error == Refusal(old(Db()), d).value
      ensures out.Ok? ==> events == old(events) + [out.value]
      ensures out.Ok? ==>
        && d.session < |old(sessions)| && RecordsDraft(out.value, d, old(sessions)[d.session].agent)
        && out.value.project < |old(projects)| && old(projects)[out.value.project].path == d.path
        && out.value.position == old(projects)[out.value.project].nextPosition
    {
      hide Valid, Attach, Body, LatestHash, FindEvent, RecordsDraft;
      AppendValid(digest, Db(), d);
      if Refusal(Db(), d).None? {
        NewRowRecords(digest, Db(), d, FindProject(projects, d.path).value);
      }
      if d.session >= |sessions| {
        return Err(UnknownSession);
      }
      if d.causedBy.Some? {
        var cause := FindEvent(events, d.causedBy.value);
        if cause.None? {
          return Err(UnknownCause);
        }
      }
      var found := FindProject(projects, d.path);
      if found.None? || sessions[d.session].project != found.value {
        return Err(SessionNotInProject);
      }
      var p := found.value;
      var duplicate := FindEvent(events, d.id);
      if duplicate.Some? {
        return Err(DuplicateId);
      }
      var prevHash := LatestIntegrityHash(p);
      var payload := Attach(digest, Body(d.payload), prevHash);
      var agent := if d.agentId.Some? && d.agentId.value != "" then d.agentId else Some(sessions[d.session].agent);
      projects := projects[p := projects[p].(nextPosition := projects[p].nextPosition + 1)];
      var position := projects[p].nextPosition - 1;
      var row := EventRow(d.id, p, d.session, agent, d.kind, d.filePath, Some(payload), d.taskHint, d.causedBy,
                          d.createdAt, position);
      events := events + [row];
      return Ok(row);
    }

    method AppendMany(ds: seq<Draft>)
      requires Valid(Db())
      modifies this
      ensures Valid(Db()) && Db() == AppendAll(digest, old(Db()), ds)
    {
      for i := 0 to |ds|
        invariant Valid(Db()) && Db() == AppendAll(digest, old(Db()), ds[..i])
      {
        assert ds[..i + 1][..i] == ds[..i];
        var _ := AppendEvent(ds[i]);
      }
      assert ds[..|ds|] == ds;
    }

    method CursorStreamPosition(p: nat, id: string) returns (r: Result<nat, RepoError>)
      ensures r == CursorPosition(Db(), p, id)
    {
      var at := FindEvent(events, id);
      if at.None? {
        return Err(UnknownCursor);
      }
      if events[at.value].project != p {
        return Err(CursorNotInProject);
      }
      return Ok(events[at.value].position);
    }

    /** `list_events`, which never looks past the last `limit` matching rows. */
    function ListEvents(path: string, keep: EventRow -> bool, limit: nat): seq<EventRow>
      reads this
    {
      Latest(Db(), path, keep, limit)
    }

    function ListEventsPaginated(path: string, keep: EventRow -> bool, cursor: Option<string>, limit: nat)
      : Result<RawPage, RepoError>
      reads this
    {
      Paginated(Db(), path, keep, cursor, limit)
    }

    method ListEventsAfter(path: string, cursor: Option<string>, through: Option<string>, limit: Option<nat>)
      returns (r: Result<seq<EventRow>, RepoError>)
      ensures r == After(Db(), path, cursor, through, limit)
    {
      var project := FindProject(projects, path);
      if project.None? {
        return Ok([]);
      }
      var p := project.value;
      var lo, hi: Option<nat> := None, None;
      if cursor.Some? {
        var position := CursorStreamPosition(p, cursor.value);
        if position.Err? {
          return Err(position.error);
        }
        lo := Some(position.value);
      }
      if through.Some? {
        var position := CursorStreamPosition(p, through.value);
        if position.Err? {
          return Err(position.error);
        }
        hi := Some(position.value);
      }
      var rows := SelectRows(events, p, lo, hi, limit);
      return Ok(rows);
    }

    /** Leave an aborted transaction: the tables are as they were. */
    method Rollback(before: Database)
      modifies this
      ensures Db() == before
    {
      projects, sessions, events := before.projects, before.sessions, before.events;
    }

    /** Stream positions of the rows whose stored hash does not match the recomputed chain. */
    method VerifyIntegrity(path: string) returns (ok: bool, total: nat, mismatches: seq<nat>)
      requires Valid(Db())
      ensures
        var project := FindProject(projects, path);
        var rows := if project.Some? then Stream(events, project.value) else [];
        var bad := Mismatches(digest, PayloadsOf(rows), |rows|);
        && total == |rows|
        && ok == (bad == [])
        && |mismatches| == |bad|
        && forall k :: 0 <= k < |bad| ==> bad[k] < |rows| && mismatches[k] == rows[bad[k]].position
    {
      var project := FindProject(projects, path);
      if project.None? {
        return true, 0, [];
      }
      var rows := Stream(events, project.value);
      var bad := VerifyHashChain(digest, PayloadsOf(rows));
      forall k | 0 <= k < |bad| ensures bad[k] < |rows| {
        MismatchesMember(digest, PayloadsOf(rows), |rows|, bad[k]);
      }
      mismatches := PositionsOf(rows, bad);
      return bad == [], |rows|, mismatches;
    }
  }
}
