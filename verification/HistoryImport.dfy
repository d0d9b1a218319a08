/** Merging foreign databases into this one (`storage/history_repair.py`). */
module HistoryImport {
  import opened Wrappers
  import opened Json
  import opened Events
  import opened Sequences
  import opened Integrity
  import opened EventRepository

  // A source row's payload text: blank, not a JSON object, or an object.
  datatype RawPayload = Blank | Opaque | Parsed(fields: Payload)

  datatype SourceProject = SourceProject(id: int, path: string)

  datatype SourceSession = SourceSession(id: int, project: int, agent: string, startedAt: int)

  datatype SourceEvent = SourceEvent(
    id: string, project: int, session: int, agentId: Option<string>, kind: EventType, filePath: Option<string>,
    payload: RawPayload, taskHint: Option<string>, causedBy: Option<string>, createdAt: int)

  // `skip`: the file is missing, or is the target itself. Events come in id order.
  datatype Source = Source(skip: bool, projects: seq<SourceProject>, sessions: seq<SourceSession>,
                           events: seq<SourceEvent>)

  datatype ImportError = DanglingReference

  type RowMap = map<int, nat>

  // The open transaction: tables so far, known event ids, positions claimed, and what was imported.
  datatype Work = Work(db: Database, known: set<string>, counters: map<nat, nat>, newSessions: nat, newEvents: nat)

  datatype Imported = Imported(sessions: nat, events: nat)

  // ---- Payload references ----

  function Pow2(n: nat): (r: nat)
    ensures r >= 1
  {
    if n == 0 then 1 else 2 * Pow2(n - 1)
  }

  /** Python's `j == n`: booleans and whole floats count. */
  predicate EqualsInt(j: Json, n: int) {
    match j
    case Num(k) => k == n
    case Bool(b) => n == if b then 1 else 0
    case Float(m, e) => if e >= 0 then m * Pow2(e) == n else m == n * Pow2(-e)
    case _ => false
  }

  /** `m` times two to the power `e`. */
  function Scaled(m: int, e: int): real {
    if e >= 0 then (m * Pow2(e)) as real else m as real / Pow2(-e) as real
  }

  /** The number a JSON value is to Python, truth values included. */
  function NumberOf(j: Json): Option<real> {
    match j
    case Num(k) => Some(k as real)
    case Bool(b) => Some(if b then 1.0 else 0.0)
    case Float(m, e) => Some(Scaled(m, e))
    case _ => None
  }

  lemma ProductIs(a: int, b: int)
    ensures (a * b) as real == a as real * b as real
  {
  }

  lemma QuotientIs(m: real, p: real, n: real)
    requires p > 0.0
    ensures m / p == n <==> m == n * p
  {
  }

  /** Equality with an integer is equality of numbers. */
  lemma EqualsIntIsEquality(j: Json, n: int)
    ensures EqualsInt(j, n) <==> NumberOf(j) == Some(n as real)
  {
    hide Pow2;
    if j.Float? && j.exponent < 0 {
      ProductIs(n, Pow2(-j.exponent));
      QuotientIs(j.mantissa as real, Pow2(-j.exponent) as real, n as real);
    }
  }

  /** `_remap_payload_session_id`. */
  function Remap(raw: RawPayload, from: int, to: int): Stored {
    match raw
    case Opaque => None
    case _ =>
      var p := if raw.Parsed? then raw.fields else map[];
      var existing := Get(p, "session_id");
      var legacy :=
        if existing != Null && !EqualsInt(existing, to) then p["legacy_session_id" := existing]
        else if from != to then p["legacy_session_id" := Num(from)]
        else p;
      Some(if "session_id" in legacy then legacy["session_id" := Num(to)] else legacy)
  }

  /** An imported payload never refers to a source session row as its own. */
  lemma RemapPointsHome(raw: RawPayload, from: int, to: int)
    ensures
      var r := Remap(raw, from, to);
      && (r.None? <==> raw.Opaque?)
      && (r.Some? && "session_id" in r.value ==> r.value["session_id"] == Num(to))
      && (r.Some? && from != to ==> "legacy_session_id" in r.value)
      && (raw.Parsed? ==> forall key :: key in raw.fields && key != "session_id" && key != "legacy_session_id" ==>
            key in r.value && r.value[key] == raw.fields[key])
  {
    assert "legacy_session_id"[0] != "session_id"[0];
  }

  // ---- Projects ----

  function WithProject(projects: seq<Project>, path: string): seq<Project> {
    if FindProject(projects, path).Some? then projects else projects + [Project(path, 1)]
  }

  function ProjectsAfter(projects: seq<Project>, rows: seq<SourceProject>): seq<Project> {
    if rows == [] then projects
    else WithProject(ProjectsAfter(projects, rows[..|rows| - 1]), rows[|rows| - 1].path)
  }

  function ProjectMap(projects: seq<Project>, rows: seq<SourceProject>): RowMap {
    if rows == [] then map[]
    else
      var last := rows[|rows| - 1];
      var at := FindProject(projects, last.path);
      var before := ProjectMap(projects, rows[..|rows| - 1]);
      if at.Some? then before[last.id := at.value] else before
  }

  // ---- Sessions ----

  predicate IsSession(s: Session, project: nat, agent: string, startedAt: int) {
    s.project == project && s.agent == agent && s.startedAt == startedAt
  }

  function FindSession(sessions: seq<Session>, project: nat, agent: string, startedAt: int): (r: Option<nat>)
    ensures r.Some? ==> r.value < |sessions| && IsSession(sessions[r.value], project, agent, startedAt)
  {
    if sessions == [] then None
    else
      var earlier := FindSession(sessions[..|sessions| - 1], project, agent, startedAt);
      if earlier.Some? then earlier
      else if IsSession(sessions[|sessions| - 1], project, agent, startedAt) then Some(|sessions| - 1)
      else None
  }

  /** The sessions after a source's session rows, or an error at a row whose project is not there. */
  function SessionsAfter(sessions: seq<Session>, pm: RowMap, rows: seq<SourceSession>)
    : (r: Result<seq<Session>, ImportError>)
    ensures r.Ok? ==> sessions <= r.value
  {
    if rows == [] then Ok(sessions)
    else
      var before := SessionsAfter(sessions, pm, rows[..|rows| - 1]);
      var row := rows[|rows| - 1];
      if before.Err? then before
      else if row.project !in pm then Err(DanglingReference)
      else if FindSession(before.value, pm[row.project], row.agent, row.startedAt).Some? then before
      else Ok(before.value + [Session(pm[row.project], row.agent, row.startedAt)])
  }

  function SessionMap(sessions: seq<Session>, pm: RowMap, rows: seq<SourceSession>): RowMap {
    if rows == [] then map[]
    else
      var row := rows[|rows| - 1];
      var before := SessionMap(sessions, pm, rows[..|rows| - 1]);
      var at := if row.project in pm then FindSession(sessions, pm[row.project], row.agent, row.startedAt) else None;
      if at.Some? then before[row.id := at.value] else before
  }

  // ---- Events ----

  /** The next position of a project: claimed ones first, its own counter otherwise. */
  function Counter(w: Work, p: nat): nat {
    if p in w.counters then w.counters[p]
    else if p < |w.db.projects| then w.db.projects[p].nextPosition
    else 1
  }

  function ImportedRow(e: SourceEvent, p: nat, session: nat, position: nat): EventRow {
    EventRow(e.id, p, session, e.agentId, e.kind, e.filePath, Remap(e.payload, e.session, session), e.taskHint,
             e.causedBy, e.createdAt, position)
  }

  function TakeEvent(w: Work, pm: RowMap, sm: RowMap, e: SourceEvent): Result<Work, ImportError> {
    if e.id in w.known then Ok(w)
    else if e.session !in sm || e.project !in pm then Err(DanglingReference)
    else
      var p := pm[e.project];
      var row := ImportedRow(e, p, sm[e.session], Counter(w, p));
      Ok(Work(w.db.(events := w.db.events + [row]), w.known + {e.id}, w.counters[p := Counter(w, p) + 1],
              w.newSessions, w.newEvents + 1))
  }

  function TakeEvents(w: Work, pm: RowMap, sm: RowMap, rows: seq<SourceEvent>): Result<Work, ImportError> {
    if rows == [] then Ok(w)
    else
      var before := TakeEvents(w, pm, sm, rows[..|rows| - 1]);
      if before.Err? then before else TakeEvent(before.value, pm, sm, rows[|rows| - 1])
  }

  // ---- Sources ----

  /** The transaction once a source's projects and sessions are in place. */
  function Placed(w: Work, s: Source): Result<Work, ImportError> {
    var projects := ProjectsAfter(w.db.projects, s.projects);
    var sessions := SessionsAfter(w.db.sessions, ProjectMap(projects, s.projects), s.sessions);
    if sessions.Err? then Err(sessions.error)
    else Ok(w.(db := Database(projects, sessions.value, w.db.events),
               newSessions := w.newSessions + |sessions.value| - |w.db.sessions|))
  }

  function TakeSource(w: Work, s: Source): Result<Work, ImportError> {
    if s.skip then Ok(w)
    else
      var placed := Placed(w, s);
      if placed.Err? then placed
      else
        var pm := ProjectMap(placed.value.db.projects, s.projects);
        TakeEvents(placed.value, pm, SessionMap(placed.value.db.sessions, pm, s.sessions), s.events)
  }

  function TakeSources(w: Work, sources: seq<Source>): Result<Work, ImportError> {
    if sources == [] then Ok(w)
    else
      var before := TakeSources(w, sources[..|sources| - 1]);
      if before.Err? then before else TakeSource(before.value, sources[|sources| - 1])
  }

  function KnownIds(events: seq<EventRow>): set<string> {
    set row | row in events :: row.id
  }

  function Begin(db: Database): Work {
    Work(db, KnownIds(db.events), map[], 0, 0)
  }

  function WithCounters(w: Work): seq<Project> {
    seq(|w.db.projects|, p requires 0 <= p < |w.db.projects| => w.db.projects[p].(nextPosition := Counter(w, p)))
  }

  function Commit(w: Work): Database {
    w.db.(projects := WithCounters(w))
  }

  /** `_merge_sources`: all sources in one transaction, or nothing. */
  function Merged(db: Database, sources: seq<Source>): Result<(Database, Imported), ImportError> {
    var w := TakeSources(Begin(db), sources);
    if w.Err? then Err(w.error) else Ok((Commit(w.value), Imported(w.value.newSessions, w.value.newEvents)))
  }

  // ---- The import as it runs ----

  lemma FindProjectSnoc(projects: seq<Project>, x: Project, path: string)
    ensures FindProject(projects + [x], path) ==
            if x.path == path then Some(|projects|) else FindProject(projects, path)
  {
    assert (projects + [x])[..|projects|] == projects;
  }

  lemma FindSessionSnoc(sessions: seq<Session>, x: Session, project: nat, agent: string, startedAt: int)
    ensures
      var before := FindSession(sessions, project, agent, startedAt);
      FindSession(sessions + [x], project, agent, startedAt) ==
      if before.Some? then before else if IsSession(x, project, agent, startedAt) then Some(|sessions|) else None
  {
    assert (sessions + [x])[..|sessions|] == sessions;
  }

  /** Rows of an earlier lookup stay where they were found. */
  lemma {:induction false} ProjectMapKept(projects: seq<Project>, x: Project, rows: seq<SourceProject>)
    requires FindProject(projects, x.path).None?
    requires forall i :: 0 <= i < |rows| ==> FindProject(projects, rows[i].path).Some?
    ensures ProjectMap(projects + [x], rows) == ProjectMap(projects, rows)
  {
    if rows != [] {
      var front, last := rows[..|rows| - 1], rows[|rows| - 1];
      assert forall i :: 0 <= i < |front| ==> front[i] == rows[i];
      ProjectMapKept(projects, x, front);
      FindProjectSnoc(projects, x, last.path);
    }
  }

  predicate AllPlaced(projects: seq<Project>, rows: seq<SourceProject>) {
    forall i :: 0 <= i < |rows| ==> FindProject(projects, rows[i].path).Some?
  }

  method ImportProjects(projects: seq<Project>, rows: seq<SourceProject>)
    returns (r: seq<Project>, projectMap: RowMap)
    ensures r == ProjectsAfter(projects, rows) && projectMap == ProjectMap(r, rows)
  {
    hide FindProject;
    r, projectMap := projects, map[];
    for i := 0 to |rows|
      invariant r == ProjectsAfter(projects, rows[..i])
      invariant projectMap == ProjectMap(r, rows[..i]) && AllPlaced(r, rows[..i])
    {
      assert rows[..i + 1][..i] == rows[..i];
      var existing := FindProject(r, rows[i].path);
      if existing.None? {
        var added := Project(rows[i].path, 1);
        ProjectMapKept(r, added, rows[..i]);
        forall j | 0 <= j < i ensures FindProject(r + [added], rows[j].path).Some? {
          assert rows[..i][j] == rows[j];
          FindProjectSnoc(r, added, rows[j].path);
        }
        FindProjectSnoc(r, added, rows[i].path);
        r := r + [added];
        existing := Some(|r| - 1);
      }
      projectMap := projectMap[rows[i].id := existing.value];
    }
    assert rows[..|rows|] == rows;
  }

  predicate AllSeated(sessions: seq<Session>, pm: RowMap, rows: seq<SourceSession>) {
    forall i :: 0 <= i < |rows| ==>
      rows[i].project in pm && FindSession(sessions, pm[rows[i].project], rows[i].agent, rows[i].startedAt).Some?
  }

  lemma {:induction false} SessionMapKept(sessions: seq<Session>, x: Session, pm: RowMap, rows: seq<SourceSession>)
    requires AllSeated(sessions, pm, rows)
    ensures SessionMap(sessions + [x], pm, rows) == SessionMap(sessions, pm, rows)
    ensures AllSeated(sessions + [x], pm, rows)
  {
    if rows != [] {
      var front, row := rows[..|rows| - 1], rows[|rows| - 1];
      assert forall i :: 0 <= i < |front| ==> front[i] == rows[i];
      SessionMapKept(sessions, x, pm, front);
      FindSessionSnoc(sessions, x, pm[row.project], row.agent, row.startedAt);
      assert forall i :: 0 <= i < |rows| ==> rows[i] == if i < |front| then front[i] else row;
    }
  }

  lemma {:induction false} SessionsStopAt(sessions: seq<Session>, pm: RowMap, rows: seq<SourceSession>, n: nat)
    requires n <= |rows| && SessionsAfter(sessions, pm, rows[..n]).Err?
    ensures SessionsAfter(sessions, pm, rows) == SessionsAfter(sessions, pm, rows[..n])
    decreases |rows|
  {
    if n < |rows| {
      assert rows[..|rows| - 1][..n] == rows[..n];
      SessionsStopAt(sessions, pm, rows[..|rows| - 1], n);
    } else {
      assert rows[..n] == rows;
    }
  }

  method ImportSessions(sessions: seq<Session>, pm: RowMap, rows: seq<SourceSession>)
    returns (out: Result<(seq<Session>, RowMap, nat), ImportError>)
    ensures
      var r := SessionsAfter(sessions, pm, rows);
      if r.Err? then out == Err(r.error)
      else out == Ok((r.value, SessionMap(r.value, pm, rows), |r.value| - |sessions|))
  {
    hide FindSession;
    var all, sessionMap, imported := sessions, map[], 0;
    for i := 0 to |rows|
      invariant SessionsAfter(sessions, pm, rows[..i]) == Ok(all)
      invariant sessionMap == SessionMap(all, pm, rows[..i]) && AllSeated(all, pm, rows[..i])
      invariant imported == |all| - |sessions|
    {
      assert rows[..i + 1][..i] == rows[..i];
      var row := rows[i];
      if row.project !in pm {
        SessionsStopAt(sessions, pm, rows, i + 1);
        return Err(DanglingReference);
      }
      var existing := FindSession(all, pm[row.project], row.agent, row.startedAt);
      if existing.None? {
        var added := Session(pm[row.project], row.agent, row.startedAt);
        SessionMapKept(all, added, pm, rows[..i]);
        FindSessionSnoc(all, added, pm[row.project], row.agent, row.startedAt);
        all, imported := all + [added], imported + 1;
        existing := Some(|all| - 1);
      }
      SeatedSnoc(all, pm, rows, i);
      sessionMap := sessionMap[row.id := existing.value];
    }
    assert rows[..|rows|] == rows;
    return Ok((all, sessionMap, imported));
  }

  lemma SeatedSnoc(sessions: seq<Session>, pm: RowMap, rows: seq<SourceSession>, i: nat)
    requires i < |rows| && AllSeated(sessions, pm, rows[..i]) && rows[i].project in pm
    requires FindSession(sessions, pm[rows[i].project], rows[i].agent, rows[i].startedAt).Some?
    ensures AllSeated(sessions, pm, rows[..i + 1])
  {
    hide FindSession;
    assert forall j :: 0 <= j < i ==> rows[..i + 1][j] == rows[..i][j];
  }

  /** `_claim_stream_position`. */
  method ClaimStreamPosition(projects: seq<Project>, counters: map<nat, nat>, p: nat)
    returns (position: nat, claimed: map<nat, nat>)
    ensures forall w: Work :: w.db.projects == projects && w.counters == counters ==> position == Counter(w, p)
    ensures claimed == counters[p := position + 1]
  {
    claimed := counters;
    if p !in claimed {
      claimed := claimed[p := if p < |projects| then projects[p].nextPosition else 1];
    }
    position := claimed[p];
    claimed := claimed[p := position + 1];
  }

  lemma {:induction false} EventsStopAt(w: Work, pm: RowMap, sm: RowMap, rows: seq<SourceEvent>, n: nat)
    requires n <= |rows| && TakeEvents(w, pm, sm, rows[..n]).Err?
    ensures TakeEvents(w, pm, sm, rows) == TakeEvents(w, pm, sm, rows[..n])
    decreases |rows|
  {
    if n < |rows| {
      assert rows[..|rows| - 1][..n] == rows[..n];
      EventsStopAt(w, pm, sm, rows[..|rows| - 1], n);
    } else {
      assert rows[..n] == rows;
    }
  }

  method ImportEvents(start: Work, pm: RowMap, sm: RowMap, rows: seq<SourceEvent>)
    returns (out: Result<Work, ImportError>)
    ensures out == TakeEvents(start, pm, sm, rows)
  {
    var events, known, counters, imported := start.db.events, start.known, start.counters, start.newEvents;
    for i := 0 to |rows|
      invariant TakeEvents(start, pm, sm, rows[..i]) ==
                Ok(Work(start.db.(events := events), known, counters, start.newSessions, imported))
    {
      assert rows[..i + 1][..i] == rows[..i];
      var e := rows[i];
      if e.id in known {
        continue;
      }
      if e.session !in sm || e.project !in pm {
        EventsStopAt(start, pm, sm, rows, i + 1);
        return Err(DanglingReference);
      }
      ghost var w := Work(start.db.(events := events), known, counters, start.newSessions, imported);
      var position, claimed := ClaimStreamPosition(start.db.projects, counters, pm[e.project]);
      assert position == Counter(w, pm[e.project]);
      events := events + [ImportedRow(e, pm[e.project], sm[e.session], position)];
      counters, known, imported := claimed, known + {e.id}, imported + 1;
    }
    assert rows[..|rows|] == rows;
    return Ok(Work(start.db.(events := events), known, counters, start.newSessions, imported));
  }

  lemma {:induction false} SourcesStopAt(w: Work, sources: seq<Source>, n: nat)
    requires n <= |sources| && TakeSources(w, sources[..n]).Err?
    ensures TakeSources(w, sources) == TakeSources(w, sources[..n])
    decreases |sources|
  {
    if n < |sources| {
      assert sources[..|sources| - 1][..n] == sources[..n];
      SourcesStopAt(w, sources[..|sources| - 1], n);
    } else {
      assert sources[..n] == sources;
    }
  }

  class HistoryRepairer {
    const repo: Repository

    constructor (r: Repository)
      ensures repo == r
    {
      repo := r;
    }

    method MergeSources(sources: seq<Source>) returns (out: Result<Imported, ImportError>)
      modifies repo
      ensures
        var merged := Merged(old(repo.Db()), sources);
        && (merged.Err? ==> out == Err(merged.error) && repo.Db() == old(repo.Db()))
        && (merged.Ok? ==> out == Ok(merged.value.1) && repo.Db() == merged.value.0)
    {
      hide ProjectsAfter, ProjectMap, SessionsAfter, SessionMap, TakeEvents, Begin, Counter;
      ghost var base := repo.Db();
      var work := Begin(repo.Db());
      for i := 0 to |sources|
        invariant repo.Db() == base && TakeSources(Begin(base), sources[..i]) == Ok(work)
      {
        assert sources[..i + 1][..i] == sources[..i];
        if sources[i].skip {
          continue;
        }
        var source := sources[i];
        var projects, projectMap := ImportProjects(work.db.projects, source.projects);
        var seated := ImportSessions(work.db.sessions, projectMap, source.sessions);
        if seated.Err? {
          SourcesStopAt(Begin(base), sources, i + 1);
          return Err(seated.error);
        }
        var (sessions, sessionMap, added) := seated.value;
        var placed := work.(db := Database(projects, sessions, work.db.events),
                            newSessions := work.newSessions + added);
        var taken := ImportEvents(placed, projectMap, sessionMap, source.events);
        if taken.Err? {
          SourcesStopAt(Begin(base), sources, i + 1);
          return Err(taken.error);
        }
        work := taken.value;
      }
      assert sources[..|sources|] == sources;
      repo.projects, repo.sessions, repo.events := WithCounters(work), work.db.sessions, work.db.events;
      return Ok(Imported(work.newSessions, work.newEvents));
    }
  }
}
