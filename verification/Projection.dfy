/** Task and metric projections from a snapshot plus pages (`load_task_projection` in `server/tools/_events.py`). */
module Projection {
  import opened Wrappers
  import opened Json
  import opened Events
  import opened Sequences
  import opened Integrity
  import opened EventRepository
  import opened Paging
  import opened TaskState
  import opened TaskStateProofs
  import M = AgentMetrics
  import D = Deduplicator

  // A compatible stored snapshot: the two views and the id of the last event they cover.
  datatype Snapshot = Snapshot(taskView: TaskView, metrics: M.Table, cursor: Option<string>)

  // `event_to_read`.
  type Reader = EventRow -> Event

  function ReadAll(read: Reader, rows: seq<EventRow>): (es: seq<Event>)
    ensures |es| == |rows|
  {
    seq(|rows|, i requires 0 <= i < |rows| => read(rows[i]))
  }

  function ReadPages(read: Reader, pages: seq<seq<EventRow>>): (r: seq<seq<Event>>)
    ensures |r| == |pages|
  {
    seq(|pages|, i requires 0 <= i < |pages| => ReadAll(read, pages[i]))
  }

  lemma ReadConcat(read: Reader, a: seq<EventRow>, b: seq<EventRow>)
    ensures ReadAll(read, a + b) == ReadAll(read, a) + ReadAll(read, b)
  {
  }

  lemma {:induction false} ReadFlatten(read: Reader, pages: seq<seq<EventRow>>)
    ensures Flatten(ReadPages(read, pages)) == ReadAll(read, Flatten(pages))
  {
    if pages != [] {
      var front := pages[..|pages| - 1];
      assert ReadPages(read, pages)[..|pages| - 1] == ReadPages(read, front);
      ReadFlatten(read, front);
      ReadConcat(read, Flatten(front), pages[|pages| - 1]);
    }
  }

  /** The task view so far, or nothing while it is still the empty dict. */
  function BoardOf(view: Option<TaskView>): Board {
    if view.None? then EMPTY_BOARD else view.value.board
  }

  /** What a projection over these events must return. */
  function Projected(rank: Ranking, base: Option<TaskView>, es: seq<Event>): Option<TaskView> {
    if es == [] then base else Some(Finalized(rank, Fold(BoardOf(base), es)))
  }

  function ProjectedMetrics(conf: M.Confidence, base: M.Table, es: seq<Event>): M.Table {
    if es == [] then base else M.Applied(conf, base, es)
  }

  lemma ProjectNext(rank: Ranking, base: Option<TaskView>, es: seq<Event>, page: seq<Event>)
    requires page != []
    ensures Projected(rank, base, es + page) == Some(Finalized(rank, Fold(BoardOf(Projected(rank, base, es)), page)))
  {
    hide Finalized, Fold;
    FoldSplit(BoardOf(base), es, page);
    FinalizedKeepsBoard(rank, Fold(BoardOf(base), es));
    if es == [] {
      assert es + page == page;
    }
  }

  lemma ProjectMetricsNext(conf: M.Confidence, base: M.Table, es: seq<Event>, page: seq<Event>)
    requires page != []
    ensures ProjectedMetrics(conf, base, es + page) == M.Applied(conf, ProjectedMetrics(conf, base, es), page)
  {
    hide M.Applied;
    if es == [] {
      assert es + page == page;
    } else {
      M.ApplyExtendsReduce(conf, base, es, page);
    }
  }

  method ProjectPages(rank: Ranking, conf: M.Confidence, read: Reader, base: Option<TaskView>, baseMetrics: M.Table,
                      pages: seq<seq<EventRow>>)
    returns (view: Option<TaskView>, metrics: M.Table)
    requires forall k :: 0 <= k < |pages| ==> pages[k] != []
    ensures view == Projected(rank, base, ReadAll(read, Flatten(pages)))
    ensures metrics == ProjectedMetrics(conf, baseMetrics, ReadAll(read, Flatten(pages)))
  {
    hide Projected, ProjectedMetrics, Fold, Finalized, M.Applied;
    view, metrics := base, baseMetrics;
    NothingProjected(rank, conf, base, baseMetrics);
    assert ReadAll(read, Flatten<EventRow>([])) == [];
    for i := 0 to |pages|
      invariant view == Projected(rank, base, ReadAll(read, Flatten(pages[..i])))
      invariant metrics == ProjectedMetrics(conf, baseMetrics, ReadAll(read, Flatten(pages[..i])))
    {
      assert pages[..i + 1][..i] == pages[..i];
      ghost var es := ReadAll(read, Flatten(pages[..i]));
      var page := ReadAll(read, pages[i]);
      ReadConcat(read, Flatten(pages[..i]), pages[i]);
      ProjectNext(rank, base, es, page);
      ProjectMetricsNext(conf, baseMetrics, es, page);
      var next := ApplyEvents(rank, if view.None? then Finalized(rank, EMPTY_BOARD) else view.value, page);
      FinalizedKeepsBoard(rank, EMPTY_BOARD);
      view := Some(next);
      metrics := M.ApplyEvents(conf, metrics, page);
    }
    assert pages[..|pages|] == pages;
  }

  lemma NothingProjected(rank: Ranking, conf: M.Confidence, base: Option<TaskView>, baseMetrics: M.Table)
    ensures Projected(rank, base, []) == base && ProjectedMetrics(conf, baseMetrics, []) == baseMetrics
  {
  }

  /** Whatever others append meanwhile, the projection covers exactly the events past the snapshot's cursor
      that were there when it began. */
  method LoadTaskProjection(repo: Repository, path: string, batchSize: int, snapshot: Option<Snapshot>, rank: Ranking,
                            conf: M.Confidence, read: Reader, env: nat -> seq<Draft>)
    returns (out: Result<(Option<TaskView>, M.Table), RepoError>)
    requires Valid(repo.Db())
    modifies repo
    ensures Valid(repo.Db())
    ensures batchSize < 1 ==> out == Err(BadBatchSize)
    ensures batchSize >= 1 ==>
      var cursor := if snapshot.None? then None else snapshot.value.cursor;
      var owed := Owed(repo.digest, old(repo.Db()), path, cursor, Gaps(env, 1));
      if owed.Err? then out == Err(owed.error)
      else
        var es := ReadAll(read, owed.value);
        out == Ok((Projected(rank, if snapshot.None? then None else Some(snapshot.value.taskView), es),
                   ProjectedMetrics(conf, if snapshot.None? then map[] else snapshot.value.metrics, es)))
  {
    hide Valid, Owed, Projected, ProjectedMetrics;
    var cursor: Option<string>, view: Option<TaskView>, metrics: M.Table := None, None, map[];
    if snapshot.Some? {
      view, metrics, cursor := Some(snapshot.value.taskView), snapshot.value.metrics, snapshot.value.cursor;
    }
    var pages, gaps := IterEventPages(repo, path, batchSize, cursor, env);
    if pages.Err? {
      return Err(pages.error);
    }
    view, metrics := ProjectPages(rank, conf, read, view, metrics, pages.value);
    return Ok((view, metrics));
  }

  // ---- A projection is a full replay ----

  /** A snapshot of the first `n` rows: built from the compressed events, its tasks in any key order. */
  ghost predicate SavedAt(rank: Ranking, read: Reader, rows: seq<EventRow>, n: nat, snapshot: Snapshot) {
    && 0 < n <= |rows|
    && snapshot.cursor == Some(rows[n - 1].id)
    && SameView(snapshot.taskView, Built(rank, D.Collapsed(ReadAll(read, rows[..n]))))
  }

  lemma OwedAfterSnapshot(h: Digest, db: Database, path: string, p: nat, n: nat, first: seq<Draft>)
    requires Valid(db) && FindProject(db.projects, path) == Some(p) && 0 < n <= |Stream(db.events, p)|
    ensures
      var rows := Stream(db.events, p);
      Owed(h, db, path, Some(rows[n - 1].id), first) == Ok(rows[n..])
  {
    hide Valid, PastIndex, Stream, AppendAll, Owed, OptionalCursor;
    var rows, now := Stream(db.events, p), AppendAll(h, db, first);
    AppendAllValid(h, db, first);
    StreamIsPrefix(h, db, first, p);
    CursorMoves(now, p, rows, n - 1);
    OwedIsSuffix(h, db, path, p, Some(rows[n - 1].id), first);
  }

  lemma OwedFromStart(h: Digest, db: Database, path: string, p: nat, first: seq<Draft>)
    requires FindProject(db.projects, path) == Some(p)
    ensures Owed(h, db, path, None, first) == Ok(Stream(db.events, p))
  {
  }

  /** With or without a snapshot, the projection agrees with building the task state from the whole log. */
  lemma ProjectionIsReplay(h: Digest, db: Database, path: string, p: nat, rank: Ranking, read: Reader,
                           snapshot: Option<Snapshot>, n: nat, first: seq<Draft>)
    requires Valid(db) && FindProject(db.projects, path) == Some(p) && Stream(db.events, p) != []
    requires snapshot.Some? ==> SavedAt(rank, read, Stream(db.events, p), n, snapshot.value)
    ensures
      var rows := Stream(db.events, p);
      var owed := Owed(h, db, path, if snapshot.None? then None else snapshot.value.cursor, first);
      && owed.Ok?
      && var view := Projected(rank, if snapshot.None? then None else Some(snapshot.value.taskView),
                               ReadAll(read, owed.value));
         && view.Some? && SameView(view.value, Built(rank, ReadAll(read, rows)))
         && (snapshot.None? ==> view.value == Built(rank, ReadAll(read, rows)))
  {
    hide Owed, Fold, Finalized, SameView, D.Collapsed, Stream, Valid;
    var rows := Stream(db.events, p);
    var whole := ReadAll(read, rows);
    if snapshot.None? {
      OwedFromStart(h, db, path, p, first);
      FoldKeysDistinct(EMPTY_BOARD, whole);
      SameBoardSameView(rank, Fold(EMPTY_BOARD, whole), Fold(EMPTY_BOARD, whole));
    } else {
      OwedAfterSnapshot(h, db, path, p, n, first);
      assert rows == rows[..n] + rows[n..];
      ReadConcat(read, rows[..n], rows[n..]);
      ResumedView(rank, ReadAll(read, rows[..n]), snapshot.value.taskView, ReadAll(read, rows[n..]));
    }
  }

  lemma ResumedView(rank: Ranking, es: seq<Event>, stored: TaskView, more: seq<Event>)
    requires SameView(stored, Built(rank, D.Collapsed(es)))
    ensures SameView(Projected(rank, Some(stored), more).value, Built(rank, es + more))
  {
    hide Fold, Finalized, SameBoard, D.Collapsed;
    if more == [] {
      assert es + more == es;
      CompressionIsInvisible(rank, es);
    } else {
      assert [more][..0] == [];
      assert Flatten([more]) == more;
      SnapshotThenPages(rank, es, stored, [more]);
    }
  }
}
