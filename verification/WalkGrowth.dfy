/** A client walk whose own calls leave rows behind (`server/tools/events.py`, `server/lifecycle_middleware.py`). */
module WalkGrowth {
  import opened Wrappers
  import opened Json
  import opened Events
  import opened Sequences
  import opened Integrity
  import opened EventRepository
  import opened Paging
  import opened EventTools
  import opened ClientPaging

  // ---- A log that grows by the same number of matching rows at every call ----

  ghost predicate GrowsBy(dbs: nat -> Database, path: string, keep: EventRow -> bool, a: nat, k: nat) {
    |Matching(dbs(k + 1), path, keep)| == |Matching(dbs(k), path, keep)| + a
  }

  ghost predicate AllShown(dbs: nat -> Database, path: string, keep: EventRow -> bool, vis: EventRow -> bool, k: nat) {
    Every(vis, Matching(dbs(k), path, keep))
  }

  /** Every matching row is visible, and each call leaves exactly `a` more of them. */
  ghost predicate EvenGrowth(dbs: nat -> Database, path: string, keep: EventRow -> bool, vis: EventRow -> bool, a: nat)
  {
    && Grows(dbs, path, keep)
    && (forall k: nat :: GrowsBy(dbs, path, keep, a, k))
    && forall k: nat :: AllShown(dbs, path, keep, vis, k)
  }

  lemma ShownAdvance(rows: seq<EventRow>, vis: EventRow -> bool, limit: nat, r: Reader)
    requires Every(vis, rows) && r.next <= |rows| && r.status == Reading && limit >= 1
    ensures
      var next := Advance(rows, vis, limit, r);
      if r.next + limit >= |rows| then next.status == Finished
      else next.status == Reading && next.next == r.next + limit
  {
    hide Filter;
    if r.next + limit < |rows| {
      var page := rows[r.next..r.next + limit];
      FilterEvery(vis, page);
      assert vis(page[|page| - 1]);
    }
  }

  /** How many rows a reader still has before it. */
  function Ahead(dbs: nat -> Database, path: string, keep: EventRow -> bool, vis: EventRow -> bool, limit: nat, k: nat)
    : int
  {
    |Matching(dbs(k), path, keep)| - Read(dbs, path, keep, vis, limit, k).next
  }

  /** While more than a page is ahead a call takes a page off and its own rows are added; otherwise it ends. */
  lemma AheadStep(dbs: nat -> Database, path: string, keep: EventRow -> bool, vis: EventRow -> bool, limit: nat, a: nat,
                  k: nat)
    requires EvenGrowth(dbs, path, keep, vis, a) && limit >= 1
    requires Follow(dbs, path, keep, vis, limit, k).status == Reading
    ensures
      var ahead := Ahead(dbs, path, keep, vis, limit, k);
      if ahead <= limit then Follow(dbs, path, keep, vis, limit, k + 1).status == Finished
      else
        && Follow(dbs, path, keep, vis, limit, k + 1).status == Reading
        && Ahead(dbs, path, keep, vis, limit, k + 1) == ahead - limit + a
  {
    hide Matching, Call, Advance, Filter, Every;
    FollowInStep(dbs, path, keep, vis, limit, k);
    FollowInStep(dbs, path, keep, vis, limit, k + 1);
    assert GrowsBy(dbs, path, keep, a, k) && AllShown(dbs, path, keep, vis, k);
    ShownAdvance(Matching(dbs(k), path, keep), vis, limit, Read(dbs, path, keep, vis, limit, k));
  }

  lemma AheadAtStart(dbs: nat -> Database, path: string, keep: EventRow -> bool, vis: EventRow -> bool, limit: nat)
    ensures Ahead(dbs, path, keep, vis, limit, 0) == |Matching(dbs(0), path, keep)|
    ensures Follow(dbs, path, keep, vis, limit, 0).status == Reading
  {
  }

  lemma {:induction false} NeverCatchesUp(dbs: nat -> Database, path: string, keep: EventRow -> bool,
                                          vis: EventRow -> bool, limit: nat, a: nat, k: nat)
    requires EvenGrowth(dbs, path, keep, vis, a) && 1 <= limit <= a && |Matching(dbs(0), path, keep)| > limit
    ensures Follow(dbs, path, keep, vis, limit, k).status == Reading
    ensures Ahead(dbs, path, keep, vis, limit, k) > limit
  {
    hide EvenGrowth, Follow, Ahead, Matching;
    if k == 0 {
      AheadAtStart(dbs, path, keep, vis, limit);
    } else {
      NeverCatchesUp(dbs, path, keep, vis, limit, a, k - 1);
      AheadStep(dbs, path, keep, vis, limit, a, k - 1);
    }
  }

  /** The call at which a walk that gains on the log ends. */
  lemma {:induction false} CatchesUp(dbs: nat -> Database, path: string, keep: EventRow -> bool, vis: EventRow -> bool,
                                     limit: nat, a: nat, k: nat)
    returns (last: nat)
    requires EvenGrowth(dbs, path, keep, vis, a) && limit >= 1
    requires Follow(dbs, path, keep, vis, limit, k).status == Reading
    requires a < limit || Ahead(dbs, path, keep, vis, limit, k) <= limit
    ensures k <= last
    ensures last - k <= if Ahead(dbs, path, keep, vis, limit, k) > 0 then Ahead(dbs, path, keep, vis, limit, k) else 0
    ensures Follow(dbs, path, keep, vis, limit, last).status == Reading
    ensures Follow(dbs, path, keep, vis, limit, last + 1).status == Finished
    decreases Ahead(dbs, path, keep, vis, limit, k)
  {
    hide EvenGrowth, Follow, Ahead, Matching;
    AheadStep(dbs, path, keep, vis, limit, a, k);
    last := k;
    if Ahead(dbs, path, keep, vis, limit, k) > limit {
      last := CatchesUp(dbs, path, keep, vis, limit, a, k + 1);
    }
  }

  /** The walk ends within as many calls as there were rows, and has then shown every matching row its last
      call could see. */
  ghost predicate EndsWithAll(dbs: nat -> Database, path: string, keep: EventRow -> bool, vis: EventRow -> bool,
                              limit: nat)
  {
    exists last: nat ::
      && last <= |Matching(dbs(0), path, keep)|
      && Follow(dbs, path, keep, vis, limit, last + 1).status == Finished
      && Follow(dbs, path, keep, vis, limit, last + 1).seen == Matching(dbs(last), path, keep)
  }

  ghost predicate NeverEnds(dbs: nat -> Database, path: string, keep: EventRow -> bool, vis: EventRow -> bool,
                            limit: nat)
  {
    forall k: nat :: Follow(dbs, path, keep, vis, limit, k).status == Reading
  }

  lemma WalkEndsWithAll(dbs: nat -> Database, path: string, keep: EventRow -> bool, vis: EventRow -> bool, limit: nat,
                        a: nat)
    requires EvenGrowth(dbs, path, keep, vis, a) && limit >= 1
    requires a < limit || |Matching(dbs(0), path, keep)| <= limit
    ensures EndsWithAll(dbs, path, keep, vis, limit)
  {
    AheadAtStart(dbs, path, keep, vis, limit);
    var last := CatchesUp(dbs, path, keep, vis, limit, a, 0);
    hide Follow, Matching, Filter;
    NothingLostOrRepeated(dbs, path, keep, vis, limit, last);
    assert AllShown(dbs, path, keep, vis, last);
    FilterEvery(vis, Matching(dbs(last), path, keep));
  }

  /** A client that is shown every matching row, `limit` a call, while each call leaves `a` more of them, is
      told for ever that there are more if and only if a page takes no more than a call adds and the log began
      with more than a page; otherwise its walk ends with everything shown. */
  lemma WalkUnderGrowth(dbs: nat -> Database, path: string, keep: EventRow -> bool, vis: EventRow -> bool, limit: nat,
                        a: nat)
    requires EvenGrowth(dbs, path, keep, vis, a) && limit >= 1
    ensures NeverEnds(dbs, path, keep, vis, limit) <==> limit <= a && |Matching(dbs(0), path, keep)| > limit
    ensures EndsWithAll(dbs, path, keep, vis, limit) <==> !(limit <= a && |Matching(dbs(0), path, keep)| > limit)
  {
    hide EvenGrowth, Follow, Matching;
    if limit <= a && |Matching(dbs(0), path, keep)| > limit {
      forall k: nat ensures Follow(dbs, path, keep, vis, limit, k).status == Reading {
        NeverCatchesUp(dbs, path, keep, vis, limit, a, k);
      }
    } else {
      WalkEndsWithAll(dbs, path, keep, vis, limit, a);
      var last: nat :| Follow(dbs, path, keep, vis, limit, last + 1).status == Finished;
    }
  }

  // ---- Rows the calls leave behind ----

  predicate FreshDrafts(db: Database, ds: seq<Draft>) {
    && (forall i, j :: 0 <= i < j < |ds| ==> ds[i].id != ds[j].id)
    && forall i :: 0 <= i < |ds| ==> FindEvent(db.events, ds[i].id).None?
  }

  /** A record the server writes about a call: for this project and session, caused by nothing, with no `_meta`. */
  predicate OwnRecord(d: Draft, path: string, session: nat) {
    d.path == path && d.session == session && d.causedBy.None? && META_KEY !in Body(d.payload)
  }

  lemma PlainRowShows(h: Digest, db: Database, d: Draft, p: nat, everything: bool, promoted: set<string>)
    requires p < |db.projects| && d.session < |db.sessions| && META_KEY !in Body(d.payload)
    ensures Visible(everything, promoted)(NewRow(h, db, d, p))
  {
    hide LatestHash, Compute;
    var prev := LatestHash(db.events, p);
    var meta := MetaOf(Attach(h, Body(d.payload), prev));
    assert META_KEY !in Strip(Body(d.payload));
    assert meta.Keys == {HASH_KEY};
    assert QUARANTINE_KEY != HASH_KEY by {
      assert |QUARANTINE_KEY| != |HASH_KEY|;
    }
    assert !Truthy(Get(meta, QUARANTINE_KEY));
  }

  ghost predicate KeepsKind(keep: EventRow -> bool, kind: EventType) {
    forall row: EventRow :: row.kind == kind ==> keep(row)
  }

  /** Everything the query matches is visible: the caller asked for everything, or nothing is held back. */
  predicate Shown(db: Database, path: string, keep: EventRow -> bool, everything: bool, promoted: set<string>) {
    Every(Visible(everything, promoted), Matching(db, path, keep))
  }

  predicate Seated(db: Database, path: string, session: nat) {
    var p := FindProject(db.projects, path);
    p.Some? && session < |db.sessions| && db.sessions[session].project == p.value
  }

  lemma {:induction false} FindAfterAppend(events: seq<EventRow>, row: EventRow, id: string)
    ensures FindEvent(events + [row], id).None? <==> FindEvent(events, id).None? && row.id != id
  {
    assert (events + [row])[..|events|] == events;
  }

  lemma OwnRecordLands(h: Digest, db: Database, d: Draft, path: string, session: nat, keep: EventRow -> bool,
                       everything: bool, promoted: set<string>)
    requires Seated(db, path, session) && OwnRecord(d, path, session) && FindEvent(db.events, d.id).None?
    requires KeepsKind(keep, d.kind)
    ensures Refusal(db, d).None?
    ensures
      var r := Append(h, db, d);
      && Seated(r, path, session)
      && |Matching(r, path, keep)| == |Matching(db, path, keep)| + 1
      && (Shown(db, path, keep, everything, promoted) ==> Shown(r, path, keep, everything, promoted))
  {
    hide Stream, Filter, Bump, NewRow, Visible;
    var p := FindProject(db.projects, path).value;
    var row := NewRow(h, db, d, p);
    BumpKeepsPaths(db.projects, p, path);
    OwnRow(h, db, d, p);
    PlainRowShows(h, db, d, p, everything, promoted);
    StreamSnoc(db.events, row, p);
    FilterSnoc(keep, Stream(db.events, p), row);
    assert Matching(Append(h, db, d), path, keep) == Matching(db, path, keep) + [row];
  }

  lemma OwnRow(h: Digest, db: Database, d: Draft, p: nat)
    requires p < |db.projects| && d.session < |db.sessions|
    ensures NewRow(h, db, d, p).project == p && NewRow(h, db, d, p).kind == d.kind
  {
  }

  predicate Names(ds: seq<Draft>, id: string) {
    exists i :: 0 <= i < |ds| && ds[i].id == id
  }

  lemma NamesOfLast(ds: seq<Draft>, id: string)
    requires ds != []
    ensures Names(ds, id) <==> Names(ds[..|ds| - 1], id) || ds[|ds| - 1].id == id
  {
    var front := ds[..|ds| - 1];
    if i :| 0 <= i < |ds| && ds[i].id == id && i < |ds| - 1 {
      assert front[i].id == id;
    }
  }

  lemma LastIsFresh(db: Database, ds: seq<Draft>)
    requires ds != [] && FreshDrafts(db, ds)
    ensures FindEvent(db.events, ds[|ds| - 1].id).None? && !Names(ds[..|ds| - 1], ds[|ds| - 1].id)
  {
  }

  function AppendedRow(h: Digest, db: Database, d: Draft): EventRow
    requires Refusal(db, d).None?
  {
    NewRow(h, db, d, FindProject(db.projects, d.path).value)
  }

  lemma AppendAddsRow(h: Digest, db: Database, d: Draft)
    requires Refusal(db, d).None?
    ensures Append(h, db, d).events == db.events + [AppendedRow(h, db, d)] && AppendedRow(h, db, d).id == d.id
  {
  }

  lemma {:induction false} OwnRecordsLand(h: Digest, db: Database, ds: seq<Draft>, path: string, session: nat,
                                          keep: EventRow -> bool, everything: bool, promoted: set<string>)
    requires Seated(db, path, session) && FreshDrafts(db, ds)
    requires forall d :: d in ds ==> OwnRecord(d, path, session) && KeepsKind(keep, d.kind)
    ensures
      var r := AppendAll(h, db, ds);
      && Seated(r, path, session)
      && |Matching(r, path, keep)| == |Matching(db, path, keep)| + |ds|
      && (Shown(db, path, keep, everything, promoted) ==> Shown(r, path, keep, everything, promoted))
    ensures forall id :: FindEvent(AppendAll(h, db, ds).events, id).None? <==>
      FindEvent(db.events, id).None? && !Names(ds, id)
  {
    if ds != [] {
      hide Matching, Seated, Shown, KeepsKind, FindEvent, OwnRecord, Names, Append, Refusal;
      var front, d := ds[..|ds| - 1], ds[|ds| - 1];
      OwnRecordsLand(h, db, front, path, session, keep, everything, promoted);
      var before := AppendAll(h, db, front);
      LastIsFresh(db, ds);
      assert FindEvent(before.events, d.id).None?;
      OwnRecordLands(h, before, d, path, session, keep, everything, promoted);
      AppendAddsRow(h, before, d);
      forall id ensures FindEvent(AppendAll(h, db, ds).events, id).None? <==>
                        FindEvent(db.events, id).None? && !Names(ds, id)
      {
        FindAfterAppend(before.events, AppendedRow(h, before, d), id);
        NamesOfLast(ds, id);
      }
    }
  }

  // ---- The run a client's calls make ----

  /** The tables before call `k`: `records(j)` is what call `j` left. */
  function After(h: Digest, db: Database, records: nat -> seq<Draft>): nat -> Database {
    (k: nat) => AppendAll(h, db, Gaps(records, k))
  }

  ghost predicate RecordedCall(records: nat -> seq<Draft>, path: string, session: nat, keep: EventRow -> bool, a: nat,
                               k: nat)
  {
    |records(k)| == a && forall d :: d in records(k) ==> OwnRecord(d, path, session) && KeepsKind(keep, d.kind)
  }

  /** Each call leaves `a` records of its own that the client's query matches, under fresh ids. */
  ghost predicate OwnRecords(db: Database, records: nat -> seq<Draft>, path: string, session: nat,
                             keep: EventRow -> bool, a: nat)
  {
    && (forall k: nat :: RecordedCall(records, path, session, keep, a, k))
    && forall k: nat :: FreshDrafts(db, Gaps(records, k))
  }

  lemma {:induction false} GapsAreOwn(db: Database, records: nat -> seq<Draft>, path: string, session: nat,
                                      keep: EventRow -> bool, a: nat, k: nat)
    requires OwnRecords(db, records, path, session, keep, a)
    ensures forall d :: d in Gaps(records, k) ==> OwnRecord(d, path, session) && KeepsKind(keep, d.kind)
    ensures |Gaps(records, k)| == k * a
  {
    hide OwnRecord, KeepsKind, FreshDrafts;
    if k > 0 {
      GapsAreOwn(db, records, path, session, keep, a, k - 1);
      assert RecordedCall(records, path, session, keep, a, k - 1);
    }
  }

  lemma OwnRecordsGrowEvenly(h: Digest, db: Database, records: nat -> seq<Draft>, path: string, session: nat,
                             keep: EventRow -> bool, a: nat, everything: bool, promoted: set<string>)
    requires Valid(db) && Seated(db, path, session) && OwnRecords(db, records, path, session, keep, a)
    requires Shown(db, path, keep, everything, promoted)
    ensures EvenGrowth(After(h, db, records), path, keep, Visible(everything, promoted), a)
  {
    hide Valid, Seated, OwnRecords, Matching, After, GrowsAt, GrowsBy, AllShown, Shown, Visible;
    var dbs, vis := After(h, db, records), Visible(everything, promoted);
    forall k: nat
      ensures GrowsAt(dbs, path, keep, k) && GrowsBy(dbs, path, keep, a, k) && AllShown(dbs, path, keep, vis, k)
    {
      CallsExtend(h, db, records, path, keep, k);
      CallGrows(h, db, records, path, session, keep, a, k, everything, promoted);
    }
  }

  lemma CallGrows(h: Digest, db: Database, records: nat -> seq<Draft>, path: string, session: nat,
                  keep: EventRow -> bool, a: nat, k: nat, everything: bool, promoted: set<string>)
    requires Seated(db, path, session) && OwnRecords(db, records, path, session, keep, a)
    requires Shown(db, path, keep, everything, promoted)
    ensures GrowsBy(After(h, db, records), path, keep, a, k)
    ensures AllShown(After(h, db, records), path, keep, Visible(everything, promoted), k)
  {
    hide Seated, OwnRecords, Matching, After, Visible;
    MatchingAfter(h, db, records, path, session, keep, a, k, everything, promoted);
    MatchingAfter(h, db, records, path, session, keep, a, k + 1, everything, promoted);
    assert (k + 1) * a == k * a + a;
  }

  lemma CallsExtend(h: Digest, db: Database, records: nat -> seq<Draft>, path: string, keep: EventRow -> bool, k: nat)
    requires Valid(db)
    ensures GrowsAt(After(h, db, records), path, keep, k)
  {
    hide Valid, Matching, AppendAll;
    AppendAllConcat(h, db, Gaps(records, k), records(k));
    AppendAllValid(h, db, Gaps(records, k));
    AppendsExtendMatching(h, AppendAll(h, db, Gaps(records, k)), records(k), path, keep);
  }

  /** After `k` calls the query matches `a` rows more for each. */
  lemma MatchingAfter(h: Digest, db: Database, records: nat -> seq<Draft>, path: string, session: nat,
                      keep: EventRow -> bool, a: nat, k: nat, everything: bool, promoted: set<string>)
    requires Seated(db, path, session) && OwnRecords(db, records, path, session, keep, a)
    requires Shown(db, path, keep, everything, promoted)
    ensures |Matching(After(h, db, records)(k), path, keep)| == |Matching(db, path, keep)| + k * a
    ensures Shown(After(h, db, records)(k), path, keep, everything, promoted)
  {
    hide Seated, Shown, Matching, AppendAll, RecordedCall, FreshDrafts, Gaps, OwnRecord, KeepsKind;
    GapsAreOwn(db, records, path, session, keep, a, k);
    OwnRecordsLand(h, db, Gaps(records, k), path, session, keep, everything, promoted);
  }

  /** Over the real tables: a client shown every matching row, whose calls leave `a` records each that its query
      matches, walks for ever if and only if its page is no larger than that and the log began with more than a
      page; otherwise it ends with everything shown. */
  lemma OwnRecordsDecideTheWalk(h: Digest, db: Database, records: nat -> seq<Draft>, path: string, session: nat,
                                keep: EventRow -> bool, everything: bool, promoted: set<string>, limit: nat, a: nat)
    requires Valid(db) && Seated(db, path, session) && OwnRecords(db, records, path, session, keep, a) && limit >= 1
    requires Shown(db, path, keep, everything, promoted)
    ensures
      var dbs, vis := After(h, db, records), Visible(everything, promoted);
      var behind := limit <= a && |Matching(db, path, keep)| > limit;
      && (NeverEnds(dbs, path, keep, vis, limit) <==> behind)
      && (EndsWithAll(dbs, path, keep, vis, limit) <==> !behind)
  {
    hide EvenGrowth, NeverEnds, EndsWithAll, Matching, OwnRecords, Valid, Shown, Visible;
    OwnRecordsGrowEvenly(h, db, records, path, session, keep, a, everything, promoted);
    WalkUnderGrowth(After(h, db, records), path, keep, Visible(everything, promoted), limit, a);
  }

  // ---- Both ways the server audits a call ----

  /** The one record `list_events` leaves itself, after it has read its page. */
  function ToolAudits(stamps: nat -> Stamp, path: string, session: nat, args: nat -> Payload): nat -> seq<Draft> {
    (k: nat) => AuditDrafts(Some(stamps(k)), path, session, args(k))
  }

  const OUTCOME := Other("tool_call_outcome")

  function OutcomeDraft(stamp: Stamp, path: string, session: nat, agent: string, result: Payload): Draft {
    Draft(stamp.id, path, session, Some(agent), OUTCOME, None, Obj(result), None, None, stamp.at)
  }

  /** What the middleware leaves between two queries when it audits centrally: the outcome of the one call and
      the record that the next has started, which that next call already reads. */
  function CentralAudits(starts: nat -> Stamp, outcomes: nat -> Stamp, path: string, session: nat, agent: string,
                         args: nat -> Payload, results: nat -> Payload): nat -> seq<Draft>
  {
    (k: nat) => [OutcomeDraft(outcomes(k), path, session, agent, results(k)),
                 AuditDraft(starts(k + 1), path, session, args(k + 1))]
  }

  ghost predicate PlainPayloads(payloads: nat -> Payload) {
    forall k: nat :: META_KEY !in payloads(k)
  }

  ghost predicate FreshRun(db: Database, records: nat -> seq<Draft>) {
    forall k: nat :: FreshDrafts(db, Gaps(records, k))
  }

  /** With its own audits on, an unfiltered walk (or one over tool calls) runs for ever exactly at one row a call
      from a log of more than one. */
  lemma ToolAuditedWalk(h: Digest, db: Database, stamps: nat -> Stamp, args: nat -> Payload, path: string, session: nat,
                        keep: EventRow -> bool, everything: bool, promoted: set<string>, limit: nat)
    requires Valid(db) && Seated(db, path, session) && limit >= 1 && KeepsKind(keep, ToolCall)
    requires Shown(db, path, keep, everything, promoted)
    requires PlainPayloads(args) && FreshRun(db, ToolAudits(stamps, path, session, args))
    ensures
      var dbs, vis := After(h, db, ToolAudits(stamps, path, session, args)), Visible(everything, promoted);
      var behind := limit == 1 && |Matching(db, path, keep)| > 1;
      && (NeverEnds(dbs, path, keep, vis, limit) <==> behind)
      && (EndsWithAll(dbs, path, keep, vis, limit) <==> !behind)
  {
    hide NeverEnds, EndsWithAll, Matching, Valid, Seated, Shown, FreshDrafts, KeepsKind;
    var records := ToolAudits(stamps, path, session, args);
    forall k: nat ensures RecordedCall(records, path, session, keep, 1, k) {
      assert records(k) == [AuditDraft(stamps(k), path, session, args(k))];
      assert META_KEY !in args(k);
    }
    OwnRecordsDecideTheWalk(h, db, records, path, session, keep, everything, promoted, limit, 1);
  }

  /** Under central audit an unfiltered walk runs for ever exactly at one or two rows a call from a log of more,
      the first call's own start among them. */
  lemma CentrallyAuditedWalk(h: Digest, db: Database, starts: nat -> Stamp, outcomes: nat -> Stamp,
                             args: nat -> Payload, results: nat -> Payload, agent: string, path: string, session: nat,
                             keep: EventRow -> bool, everything: bool, promoted: set<string>, limit: nat)
    requires Valid(db) && Seated(db, path, session) && limit >= 1
    requires KeepsKind(keep, ToolCall) && KeepsKind(keep, OUTCOME)
    requires Shown(db, path, keep, everything, promoted)
    requires PlainPayloads(args) && PlainPayloads(results)
    requires FreshRun(db, CentralAudits(starts, outcomes, path, session, agent, args, results))
    ensures
      var dbs := After(h, db, CentralAudits(starts, outcomes, path, session, agent, args, results));
      var vis := Visible(everything, promoted);
      var behind := limit <= 2 && |Matching(db, path, keep)| > limit;
      && (NeverEnds(dbs, path, keep, vis, limit) <==> behind)
      && (EndsWithAll(dbs, path, keep, vis, limit) <==> !behind)
  {
    hide NeverEnds, EndsWithAll, Matching, Valid, Seated, Shown, FreshDrafts, KeepsKind;
    var records := CentralAudits(starts, outcomes, path, session, agent, args, results);
    forall k: nat ensures RecordedCall(records, path, session, keep, 2, k) {
      var outcome := OutcomeDraft(outcomes(k), path, session, agent, results(k));
      var start := AuditDraft(starts(k + 1), path, session, args(k + 1));
      assert records(k) == [outcome, start];
      assert META_KEY !in args(k + 1) && META_KEY !in results(k);
      assert OwnRecord(outcome, path, session) && OwnRecord(start, path, session);
      assert outcome.kind == OUTCOME && start.kind == ToolCall;
    }
    OwnRecordsDecideTheWalk(h, db, records, path, session, keep, everything, promoted, limit, 2);
  }
}
