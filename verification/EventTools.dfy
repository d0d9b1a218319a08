/** The event tools of one server (`server/tools/events.py`) and its promoted-ids cache (`server/context.py`). */
module EventTools {
  import opened Wrappers
  import opened Json
  import opened Events
  import opened Fields
  import opened Sequences
  import opened Integrity
  import opened EventRepository

  const LIFT_WINDOW := 10000
  const QUARANTINE_KEY := "quarantined"

  datatype ToolError = NoActiveSession | InvalidSession | Store(error: RepoError)

  datatype Page = Page(events: seq<EventRow>, nextCursor: Option<string>, hasMore: bool)

  // A fresh event id and the time it is written.
  datatype Stamp = Stamp(id: string, at: int)

  predicate Quarantined(row: EventRow) {
    row.stored.Some? && Truthy(Get(MetaOf(row.stored.value), QUARANTINE_KEY))
  }

  function Visible(everything: bool, promoted: set<string>): EventRow -> bool {
    (row: EventRow) => everything || !Quarantined(row) || row.id in promoted
  }

  function IsLift(): EventRow -> bool {
    (row: EventRow) => row.kind == QuarantineLifted
  }

  /** Ids the given lift rows promote. */
  function Causes(rows: seq<EventRow>): set<string> {
    set row | row in rows && row.causedBy.Some? && row.causedBy.value != "" :: row.causedBy.value
  }

  /** What the server reads for its cache: the causes of the newest lifts. */
  function PromotedIds(db: Database, path: string): set<string> {
    Causes(Latest(db, path, IsLift(), LIFT_WINDOW))
  }

  function Lifts(db: Database, path: string): seq<EventRow> {
    var project := FindProject(db.projects, path);
    if project.None? then [] else Filter(IsLift(), Stream(db.events, project.value))
  }

  /** `list_events_impl` past the cache: a page of rows, less the hidden ones, and where to go on. */
  function ServePage(db: Database, path: string, keep: EventRow -> bool, vis: EventRow -> bool, cursor: Option<string>,
                     limit: nat): Result<Page, RepoError>
  {
    var raw := Paginated(db, path, keep, cursor, limit);
    if raw.Err? then Err(raw.error)
    else
      var events := Filter(vis, raw.value.rows);
      var next := if raw.value.hasMore && events != [] then Some(events[|events| - 1].id) else None;
      Ok(Page(events, next, raw.value.hasMore))
  }

  function BindSession(db: Database, path: string, active: Option<nat>, requested: Option<nat>): Result<nat, ToolError>
  {
    if requested.Some? then
      var project := FindProject(db.projects, path);
      if requested.value < |db.sessions| && project.Some? && db.sessions[requested.value].project == project.value
      then Ok(requested.value)
      else Err(InvalidSession)
    else if active.None? then Err(NoActiveSession)
    else Ok(active.value)
  }

  function AuditDraft(stamp: Stamp, path: string, session: nat, args: Payload): Draft {
    Draft(stamp.id, path, session, None, ToolCall, None, Obj(args), None, None, stamp.at)
  }

  function AuditDrafts(stamp: Option<Stamp>, path: string, session: nat, args: Payload): seq<Draft> {
    if stamp.None? then [] else [AuditDraft(stamp.value, path, session, args)]
  }

  /** The lift that promotes an event. */
  function LiftDraft(id: string, lift: Stamp, path: string, session: nat): Draft {
    var payload := map["promoted_event_id" := Str(id), "reason" := Str("manual_promotion")];
    Draft(lift.id, path, session, None, QuarantineLifted, None, Obj(payload), None, Some(id), lift.at)
  }

  /** Why a draft and its audit record do not land together, if so. */
  function AuditedRefusal(h: Digest, db: Database, d: Draft, audit: seq<Draft>): Option<RepoError> {
    if Refusal(db, d).Some? then Refusal(db, d)
    else if audit == [] then None
    else Refusal(Append(h, db, d), audit[0])
  }

  class BrainContext {
    const repo: Repository
    const path: string
    var activeSession: Option<nat>
    var promotedIds: Option<set<string>>
    var promotedIdsVersion: nat

    /** The tables are valid, and the cached ids, if any, are those the log promotes now. */
    ghost predicate Valid()
      reads this, repo
    {
      EventRepository.Valid(repo.Db()) && (promotedIds.Some? ==> promotedIds.value == PromotedIds(repo.Db(), path))
    }

    constructor (r: Repository, p: string, active: Option<nat>)
      requires EventRepository.Valid(r.Db())
      ensures Valid() && repo == r && path == p && activeSession == active && promotedIds == None
    {
      repo, path, activeSession, promotedIds, promotedIdsVersion := r, p, active, None, 0;
    }

    method InvalidatePromotedIdsCache()
      modifies this`promotedIds, this`promotedIdsVersion
      ensures promotedIds == None && promotedIdsVersion == old(promotedIdsVersion) + 1
    {
      promotedIds := None;
      promotedIdsVersion := promotedIdsVersion + 1;
    }

    method SetPromotedIds(ids: set<string>)
      modifies this`promotedIds
      ensures promotedIds == Some(ids)
    {
      promotedIds := Some(ids);
    }
  }

  // ---- Appends and the cache ----

  lemma IgnoredRow(events: seq<EventRow>, row: EventRow, p: nat, keep: EventRow -> bool)
    requires !keep(row)
    ensures Filter(keep, Stream(events + [row], p)) == Filter(keep, Stream(events, p))
  {
    StreamSnoc(events, row, p);
    if row.project == p {
      FilterSnoc(keep, Stream(events, p), row);
    } else {
      assert Stream(events, p) + [] == Stream(events, p);
    }
  }

  lemma LatestIgnores(h: Digest, db: Database, d: Draft, path: string, keep: EventRow -> bool, limit: nat)
    requires Refusal(db, d).None? ==>
      !keep(NewRow(h, db, d, FindProject(db.projects, d.path).value))
    ensures Latest(Append(h, db, d), path, keep, limit) == Latest(db, path, keep, limit)
  {
    hide NewRow, Bump, Stream, Filter;
    if Refusal(db, d).None? {
      var p := FindProject(db.projects, d.path).value;
      BumpKeepsPaths(db.projects, p, path);
      var project := FindProject(db.projects, path);
      if project.Some? {
        IgnoredRow(db.events, NewRow(h, db, d, p), project.value, keep);
      }
    }
  }

  /** An audit record promotes nothing. */
  lemma AuditKeepsPromotions(h: Digest, db: Database, stamp: Stamp, path: string, session: nat, args: Payload)
    ensures PromotedIds(Append(h, db, AuditDraft(stamp, path, session, args)), path) == PromotedIds(db, path)
  {
    LatestIgnores(h, db, AuditDraft(stamp, path, session, args), path, IsLift(), LIFT_WINDOW);
  }

  /** A lift is among the newest lifts as soon as it is appended. */
  lemma LiftShows(h: Digest, db: Database, d: Draft, id: string)
    requires Refusal(db, d).None? && d.kind == QuarantineLifted && d.causedBy == Some(id) && id != ""
    ensures id in PromotedIds(Append(h, db, d), d.path)
  {
    hide Bump, Stream, Filter;
    var p := FindProject(db.projects, d.path).value;
    var row := NewRow(h, db, d, p);
    var now := Append(h, db, d);
    BumpKeepsPaths(db.projects, p, d.path);
    StreamSnoc(db.events, row, p);
    FilterSnoc(IsLift(), Stream(db.events, p), row);
    var rows := Latest(now, d.path, IsLift(), LIFT_WINDOW);
    assert rows[|rows| - 1] == row;
    assert row in rows;
  }

  // ---- What the window of the newest lifts misses ----

  predicate EachLiftedOnce(rows: seq<EventRow>) {
    && (forall i :: 0 <= i < |rows| ==> rows[i].causedBy.Some? && rows[i].causedBy.value != "")
    && forall i, j :: 0 <= i < j < |rows| ==> rows[i].causedBy != rows[j].causedBy
  }

  lemma CausesOfSuffix(rows: seq<EventRow>, n: nat)
    requires n <= |rows|
    ensures Causes(rows[n..]) <= Causes(rows)
  {
    forall id | id in Causes(rows[n..]) ensures id in Causes(rows) {
      var row :| row in rows[n..] && row.causedBy == Some(id);
      assert row in rows;
    }
  }

  /** The ids used for visibility are never more than those the log lifts, and where no event is lifted
      twice they are all of them exactly as long as the log holds no more than the window of lifts. */
  lemma WindowOfLifts(db: Database, path: string)
    ensures PromotedIds(db, path) <= Causes(Lifts(db, path))
    ensures |Lifts(db, path)| <= 10000 ==> PromotedIds(db, path) == Causes(Lifts(db, path))
    ensures EachLiftedOnce(Lifts(db, path)) ==>
      (PromotedIds(db, path) == Causes(Lifts(db, path)) <==> |Lifts(db, path)| <= 10000)
  {
    var rows := Lifts(db, path);
    if |rows| > LIFT_WINDOW {
      var n := |rows| - LIFT_WINDOW;
      assert Latest(db, path, IsLift(), LIFT_WINDOW) == rows[n..];
      CausesOfSuffix(rows, n);
      if EachLiftedOnce(rows) {
        assert rows[0] in rows && rows[0].causedBy.value in Causes(rows);
        assert rows[0].causedBy.value !in Causes(rows[n..]);
      }
    }
  }

  // ---- What the tools write ----

  /** A save goes to the session it asks for, when that is one of the project's, and else to none; without asking,
      to the active session. */
  lemma BindsExactly(db: Database, path: string, active: Option<nat>, requested: Option<nat>)
    requires EventRepository.Valid(db)
    ensures
      var bound := BindSession(db, path, active, requested);
      match requested
      case Some(n) =>
        if n < |db.sessions| && db.sessions[n].project < |db.projects|
           && db.projects[db.sessions[n].project].path == path then bound == Ok(n)
        else bound == Err(InvalidSession)
      case None => if active.None? then bound == Err(NoActiveSession) else bound == Ok(active.value)
  {
    assert DistinctPaths(db.projects) && References(db);
    hide EventRepository.Valid;
  }

  /** An audit record is a tool call of the session's agent, without path, hint or cause, with the given arguments. */
  lemma AuditRecordIs(h: Digest, db: Database, stamp: Stamp, path: string, session: nat, args: Payload)
    requires Refusal(db, AuditDraft(stamp, path, session, args)).None?
    ensures
      var r := Append(h, db, AuditDraft(stamp, path, session, args)).events;
      && |r| == |db.events| + 1 && r[..|db.events|] == db.events
      && var row := r[|db.events|];
         && row.id == stamp.id && row.createdAt == stamp.at && row.kind == ToolCall && row.session == session
         && row.filePath == None && row.taskHint == None && row.causedBy == None
         && session < |db.sessions| && row.agentId == Some(db.sessions[session].agent)
         && row.project < |db.projects| && db.projects[row.project].path == path
         && StoresPayload(row.stored, Obj(args))
  {
    hide Attach, StoresPayload;
    var d := AuditDraft(stamp, path, session, args);
    NewRowRecords(h, db, d, FindProject(db.projects, path).value);
  }

  /** A lift is a record of the session's agent caused by the event it promotes, which its payload names. */
  lemma LiftRecordIs(h: Digest, db: Database, id: string, lift: Stamp, path: string, session: nat)
    requires Refusal(db, LiftDraft(id, lift, path, session)).None?
    ensures
      var r := Append(h, db, LiftDraft(id, lift, path, session)).events;
      && |r| == |db.events| + 1 && r[..|db.events|] == db.events
      && var row := r[|db.events|];
         && row.id == lift.id && row.createdAt == lift.at && row.kind == QuarantineLifted && row.session == session
         && row.filePath == None && row.taskHint == None && row.causedBy == Some(id)
         && session < |db.sessions| && row.agentId == Some(db.sessions[session].agent)
         && row.project < |db.projects| && db.projects[row.project].path == path
         && StoresPayload(row.stored, Obj(map["promoted_event_id" := Str(id), "reason" := Str("manual_promotion")]))
  {
    hide Attach, StoresPayload;
    var d := LiftDraft(id, lift, path, session);
    NewRowRecords(h, db, d, FindProject(db.projects, path).value);
  }

  // ---- What a page shows ----

  /** The payload's `_meta` is an object whose `quarantined` is not falsy. */
  predicate Marked(row: EventRow) {
    match row.stored
    case None => false
    case Some(p) =>
      "_meta" in p && p["_meta"].Obj? && "quarantined" in p["_meta"].fields && !Falsy(p["_meta"].fields["quarantined"])
  }

  /** Some event of the project lifts the quarantine of this id. */
  predicate LiftedBy(db: Database, path: string, id: string) {
    exists i :: 0 <= i < |db.events| && Lifting(db, path, id, db.events[i])
  }

  predicate Lifting(db: Database, path: string, id: string, row: EventRow) {
    && row.kind == QuarantineLifted && row.causedBy == Some(id)
    && row.project < |db.projects| && db.projects[row.project].path == path
  }

  lemma MarkedIsQuarantined(row: EventRow)
    ensures Quarantined(row) <==> Marked(row)
  {
    if row.stored.Some? {
      TruthyIsNotFalsy(Get(MetaOf(row.stored.value), QUARANTINE_KEY));
    }
  }

  lemma LiftedIsPromoted(db: Database, path: string, id: string)
    requires DistinctPaths(db.projects) && References(db) && |Lifts(db, path)| <= LIFT_WINDOW && id != ""
    ensures id in PromotedIds(db, path) <==> LiftedBy(db, path, id)
  {
    WindowOfLifts(db, path);
    var rows, project := Lifts(db, path), FindProject(db.projects, path);
    if project.Some? {
      forall row ensures row in rows <==> row in db.events && row.project == project.value && IsLift()(row) {
        FilterMember(IsLift(), Stream(db.events, project.value), row);
        StreamMember(db.events, project.value, row);
      }
      if row :| row in rows && row.causedBy == Some(id) {
        var i :| 0 <= i < |db.events| && db.events[i] == row;
        assert Lifting(db, path, id, db.events[i]);
      }
      if i :| 0 <= i < |db.events| && Lifting(db, path, id, db.events[i]) {
        assert db.events[i] in rows && db.events[i].causedBy.value in Causes(rows);
      }
    }
  }

  /** A page holds exactly those rows of the raw page that bear no quarantine mark, or are lifted, or all of them
      where the caller asked for everything (up to the ten thousand lifts the server reads), in their order. */
  lemma PageShows(db: Database, path: string, keep: EventRow -> bool, cursor: Option<string>, limit: nat,
                  everything: bool, row: EventRow)
    requires EventRepository.Valid(db) && |Lifts(db, path)| <= 10000 && row.id != ""
    ensures
      var served := ServePage(db, path, keep, Visible(everything, PromotedIds(db, path)), cursor, limit);
      var raw := Paginated(db, path, keep, cursor, limit);
      && (served.Ok? <==> raw.Ok?)
      && (served.Ok? ==>
            && served.value.hasMore == raw.value.hasMore
            && (row in served.value.events <==>
                row in raw.value.rows && (everything || !Marked(row) || LiftedBy(db, path, row.id))))
  {
    hide Paginated, Marked, LiftedBy, PromotedIds, Quarantined, Filter;
    assert DistinctPaths(db.projects) && References(db);
    hide EventRepository.Valid;
    var vis := Visible(everything, PromotedIds(db, path));
    var raw := Paginated(db, path, keep, cursor, limit);
    if raw.Ok? {
      FilterMember(vis, raw.value.rows, row);
      MarkedIsQuarantined(row);
      LiftedIsPromoted(db, path, row.id);
    }
  }

  // ---- The tools ----

  /** Append a draft and its audit record in one transaction. */
  method AppendAudited(repo: Repository, d: Draft, audit: seq<Draft>) returns (out: Result<EventRow, RepoError>)
    requires EventRepository.Valid(repo.Db()) && |audit| <= 1
    modifies repo
    ensures EventRepository.Valid(repo.Db())
    ensures out.Ok? ==> repo.Db() == AppendAll(repo.digest, old(repo.Db()), [d] + audit)
    ensures out.Ok? ==> old(repo.events) + [out.value] <= repo.events
    ensures out.Ok? ==> Refusal(old(repo.Db()), d).None?
    ensures out.Ok? ==>
      out.value == NewRow(repo.digest, old(repo.Db()), d, FindProject(old(repo.projects), d.path).value)
    ensures out.Ok? ==>
      && d.session < |old(repo.sessions)| && RecordsDraft(out.value, d, old(repo.sessions)[d.session].agent)
    ensures out.Err? ==> repo.Db() == old(repo.Db())
    ensures
      var refusal := AuditedRefusal(repo.digest, old(repo.Db()), d, audit);
      if refusal.Some? then out == Err(refusal.value) else out.Ok?
  {
    hide EventRepository.Valid, Refusal, NewRow, RecordsDraft;
    var before := repo.Db();
    out := repo.AppendEvent(d);
    assert AppendAll(repo.digest, before, [d]) == Append(repo.digest, before, d) by {
      assert [d][..0] == [];
    }
    assert [d] + [] == [d];
    assert out.Ok? ==> repo.events[|before.events|] == out.value;
    if out.Err? || audit == [] {
      return;
    }
    var logged := repo.AppendEvent(audit[0]);
    if logged.Err? {
      repo.Rollback(before);
      return Err(logged.error);
    }
    assert ([d] + audit)[..1] == [d];
  }

  lemma AuditedLiftShows(h: Digest, db: Database, d: Draft, id: string, audit: Option<Stamp>, session: nat,
                         args: Payload)
    requires Refusal(db, d).None? && d.kind == QuarantineLifted && d.causedBy == Some(id) && id != ""
    ensures id in PromotedIds(AppendAll(h, db, [d] + AuditDrafts(audit, d.path, session, args)), d.path)
  {
    hide Append, Refusal, PromotedIds;
    LiftShows(h, db, d, id);
    assert [d][..0] == [];
    assert AppendAll(h, db, [d]) == Append(h, db, d);
    if audit.None? {
      assert [d] + [] == [d];
    } else {
      AuditKeepsPromotions(h, Append(h, db, d), audit.value, d.path, session, args);
      assert ([d] + AuditDrafts(audit, d.path, session, args))[..1] == [d];
    }
  }

  method SaveEvent(context: BrainContext, d: Draft, session: Option<nat>, audit: Option<Stamp>, args: Payload)
    returns (out: Result<EventRow, ToolError>)
    requires context.Valid()
    modifies context, context.repo
    ensures context.Valid() && context.activeSession == old(context.activeSession)
    ensures
      var bound := BindSession(old(context.repo.Db()), context.path, context.activeSession, session);
      && (bound.Err? ==> out == Err(bound.error))
      && (bound.Ok? ==>
            var refusal := AuditedRefusal(
              context.repo.digest, old(context.repo.Db()), d.(path := context.path, session := bound.value),
              AuditDrafts(audit, context.path, bound.value, args));
            if refusal.Some? then out == Err(Store(refusal.value)) else out.Ok?)
      && (out.Ok? ==>
            context.repo.Db() == AppendAll(
              context.repo.digest, old(context.repo.Db()),
              [d.(path := context.path, session := bound.value)]
                + AuditDrafts(audit, context.path, bound.value, args)))
    ensures out.Ok? ==> context.promotedIds == None && old(context.repo.events) + [out.value] <= context.repo.events
    ensures out.Ok? ==>
      var bound := BindSession(old(context.repo.Db()), context.path, context.activeSession, session);
      && bound.Ok? && bound.value < |old(context.repo.sessions)|
      && RecordsDraft(out.value, d.(path := context.path, session := bound.value),
                      old(context.repo.sessions)[bound.value].agent)
    ensures out.Err? ==> context.repo.Db() == old(context.repo.Db()) && context.promotedIds == old(context.promotedIds)
  {
    hide EventRepository.Valid, RecordsDraft;
    var bound := BindSession(context.repo.Db(), context.path, context.activeSession, session);
    if bound.Err? {
      return Err(bound.error);
    }
    var saved := AppendAudited(context.repo, d.(path := context.path, session := bound.value),
                               AuditDrafts(audit, context.path, bound.value, args));
    if saved.Err? {
      return Err(Store(saved.error));
    }
    context.InvalidatePromotedIdsCache();
    return Ok(saved.value);
  }

  /** Promotion never touches the quarantined event: it appends a lift that names it as its cause. */
  method PromoteEvent(context: BrainContext, id: string, lift: Stamp, audit: Option<Stamp>, args: Payload)
    returns (out: Result<EventRow, ToolError>)
    requires context.Valid()
    modifies context, context.repo
    ensures context.Valid() && context.activeSession == old(context.activeSession)
    ensures context.activeSession.None? ==> out == Err(NoActiveSession)
    ensures context.activeSession.Some? ==>
      var session := context.activeSession.value;
      var refusal := AuditedRefusal(
        context.repo.digest, old(context.repo.Db()), LiftDraft(id, lift, context.path, session),
        AuditDrafts(audit, context.path, session, args));
      if refusal.Some? then out == Err(Store(refusal.value)) else out.Ok?
    ensures out.Ok? ==> context.promotedIds == None
    ensures out.Ok? ==> old(context.repo.events) + [out.value] <= context.repo.events
    ensures out.Ok? ==>
      && context.activeSession.value < |old(context.repo.sessions)|
      && RecordsDraft(out.value, LiftDraft(id, lift, context.path, context.activeSession.value),
                      old(context.repo.sessions)[context.activeSession.value].agent)
      && IsLift()(out.value) && out.value.causedBy == Some(id)
    ensures out.Ok? && id != "" ==> id in PromotedIds(context.repo.Db(), context.path)
    ensures out.Err? ==> context.repo.Db() == old(context.repo.Db()) && context.promotedIds == old(context.promotedIds)
  {
    hide EventRepository.Valid, StoresPayload, PromotedIds, AuditedRefusal, NewRow, Refusal, Append, AppendAll,
      Attach;
    if context.activeSession.None? {
      return Err(NoActiveSession);
    }
    var session := context.activeSession.value;
    var d := LiftDraft(id, lift, context.path, session);
    ghost var h, before := context.repo.digest, context.repo.Db();
    var saved := AppendAudited(context.repo, d, AuditDrafts(audit, context.path, session, args));
    if saved.Err? {
      return Err(Store(saved.error));
    }
    if id != "" {
      AuditedLiftShows(h, before, d, id, audit, session, args);
    }
    context.InvalidatePromotedIdsCache();
    return Ok(saved.value);
  }

  method KnownPromotions(context: BrainContext, everything: bool) returns (promoted: Option<set<string>>)
    requires context.Valid()
    modifies context`promotedIds
    ensures context.Valid()
    ensures promoted == context.promotedIds && (!everything ==> promoted.Some?)
  {
    hide EventRepository.Valid, Latest, Causes;
    promoted := context.promotedIds;
    if !everything && promoted.None? {
      promoted := Some(Causes(context.repo.ListEvents(context.path, IsLift(), LIFT_WINDOW)));
      context.SetPromotedIds(promoted.value);
    }
  }

  method ReadPage(repo: Repository, path: string, keep: EventRow -> bool, cursor: Option<string>, limit: nat,
                  everything: bool, promoted: Option<set<string>>)
    returns (out: Result<Page, RepoError>)
    requires !everything ==> promoted == Some(PromotedIds(repo.Db(), path))
    ensures out == ServePage(repo.Db(), path, keep, Visible(everything, PromotedIds(repo.Db(), path)), cursor, limit)
  {
    var raw := repo.ListEventsPaginated(path, keep, cursor, limit);
    if raw.Err? {
      return Err(raw.error);
    }
    var events := raw.value.rows;
    if !everything && promoted.Some? {
      events := Filter(Visible(false, promoted.value), events);
    } else {
      FilterEvery(Visible(true, PromotedIds(repo.Db(), path)), events);
    }
    var next := if raw.value.hasMore && events != [] then Some(events[|events| - 1].id) else None;
    return Ok(Page(events, next, raw.value.hasMore));
  }

  function AuditRefusal(db: Database, audit: Option<Stamp>, path: string, session: nat, args: Payload)
    : Option<RepoError>
  {
    if audit.None? then None else Refusal(db, AuditDraft(audit.value, path, session, args))
  }

  method AuditToolCall(context: BrainContext, audit: Option<Stamp>, args: Payload) returns (refused: Option<RepoError>)
    requires context.Valid() && context.activeSession.Some?
    modifies context.repo
    ensures context.Valid()
    ensures refused == AuditRefusal(old(context.repo.Db()), audit, context.path, context.activeSession.value, args)
    ensures context.repo.Db() ==
      if refused.Some? then old(context.repo.Db())
      else AppendAll(context.repo.digest, old(context.repo.Db()),
                     AuditDrafts(audit, context.path, context.activeSession.value, args))
  {
    hide EventRepository.Valid, PromotedIds;
    if audit.None? {
      return None;
    }
    var session := context.activeSession.value;
    var d := AuditDraft(audit.value, context.path, session, args);
    AuditKeepsPromotions(context.repo.digest, context.repo.Db(), audit.value, context.path, session, args);
    assert [d][..0] == [];
    var logged := context.repo.AppendEvent(d);
    return if logged.Err? then Some(logged.error) else None;
  }

  /** One page of history; the answer depends on the log alone, cached promotions or not. */
  method ListEvents(context: BrainContext, keep: EventRow -> bool, cursor: Option<string>, limit: nat, everything: bool,
                    audit: Option<Stamp>, args: Payload)
    returns (out: Result<Page, ToolError>)
    requires context.Valid() && limit >= 1
    modifies context, context.repo
    ensures context.Valid()
    ensures
      var db := old(context.repo.Db());
      var served := ServePage(db, context.path, keep, Visible(everything, PromotedIds(db, context.path)), cursor,
                              limit);
      && context.activeSession == old(context.activeSession)
      && (context.activeSession.None? ==> out == Err(NoActiveSession))
      && (context.activeSession.Some? && served.Err? ==> out == Err(Store(served.error)))
      && (context.activeSession.Some? && served.Ok? ==>
            var refused := AuditRefusal(db, audit, context.path, context.activeSession.value, args);
            out == if refused.Some? then Err(Store(refused.value)) else Ok(served.value))
    ensures out.Ok? ==>
      context.repo.Db() == AppendAll(context.repo.digest, old(context.repo.Db()),
                                     AuditDrafts(audit, context.path, context.activeSession.value, args))
    ensures out.Err? ==> context.repo.Db() == old(context.repo.Db())
  {
    hide EventRepository.Valid, ServePage;
    if context.activeSession.None? {
      return Err(NoActiveSession);
    }
    var promoted := KnownPromotions(context, everything);
    var served := ReadPage(context.repo, context.path, keep, cursor, limit, everything, promoted);
    if served.Err? {
      return Err(Store(served.error));
    }
    var refused := AuditToolCall(context, audit, args);
    if refused.Some? {
      return Err(Store(refused.value));
    }
    return Ok(served.value);
  }
}
