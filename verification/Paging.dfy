/** Stable paging up to a high-water event while others append (`server/tools/_events.py`). */
module Paging {
  import opened Wrappers
  import opened Events
  import opened Sequences
  import opened EventRepository
  import opened EventLogProofs
  import opened Integrity

  function AnyRow(): EventRow -> bool {
    (row: EventRow) => true
  }

  function InRange(lo: Option<nat>, hi: Option<nat>): EventRow -> bool {
    (row: EventRow) => (lo.Some? ==> row.position > lo.value) && (hi.Some? ==> row.position <= hi.value)
  }

  // ---- A query is a slice of the stream ----

  lemma {:induction false} SelectFromStream(events: seq<EventRow>, p: nat, lo: Option<nat>, hi: Option<nat>)
    ensures Select(events, p, lo, hi) == Filter(InRange(lo, hi), Stream(events, p))
  {
    if events != [] {
      var front, row := events[..|events| - 1], events[|events| - 1];
      SelectFromStream(front, p, lo, hi);
      if Selects(p, None, None)(row) {
        FilterSnoc(InRange(lo, hi), Stream(front, p), row);
      } else {
        assert Stream(events, p) == Stream(front, p);
      }
    }
  }

  /** Index of the first row past a position. */
  function PastIndex(rows: seq<EventRow>, at: Option<nat>): (n: nat)
    ensures n <= |rows|
  {
    if at.None? || rows == [] then 0
    else if rows[|rows| - 1].position <= at.value then |rows|
    else PastIndex(rows[..|rows| - 1], at)
  }

  lemma {:induction false} PastIndexSplits(rows: seq<EventRow>, at: Option<nat>, i: nat)
    requires Increasing(rows) && i < |rows|
    ensures i < PastIndex(rows, at) <==> at.Some? && rows[i].position <= at.value
  {
    if at.Some? && rows[|rows| - 1].position > at.value && i < |rows| - 1 {
      PastIndexSplits(rows[..|rows| - 1], at, i);
    }
  }

  lemma AfterIsSuffix(rows: seq<EventRow>, lo: Option<nat>, hi: Option<nat>)
    requires Increasing(rows) && (rows != [] && hi.Some? ==> rows[|rows| - 1].position <= hi.value)
    ensures Filter(InRange(lo, hi), rows) == rows[PastIndex(rows, lo)..]
  {
    var n, keep := PastIndex(rows, lo), InRange(lo, hi);
    forall i | 0 <= i < |rows| ensures keep(rows[i]) <==> i >= n {
      PastIndexSplits(rows, lo, i);
    }
    FilterSuffix(keep, rows, n);
  }

  lemma BeyondIsNothing(rows: seq<EventRow>, lo: Option<nat>, hi: nat)
    requires forall i :: 0 <= i < |rows| ==> rows[i].position > hi
    ensures Filter(InRange(lo, Some(hi)), rows) == []
  {
    FilterNone(InRange(lo, Some(hi)), rows);
  }

  /** A row of the stream is found by its id, at its own position. */
  lemma CursorOfRow(db: Database, p: nat, k: nat)
    requires Valid(db) && p < |db.projects| && k < |Stream(db.events, p)|
    ensures CursorPosition(db, p, Stream(db.events, p)[k].id) == Ok(Stream(db.events, p)[k].position)
  {
    var row := Stream(db.events, p)[k];
    StreamMember(db.events, p, row);
    var i :| 0 <= i < |db.events| && db.events[i] == row;
    SameIdSameIndex(db.events, i);
  }

  lemma UpToRow(rows: seq<EventRow>, was: seq<EventRow>, lo: Option<nat>, hi: nat)
    requires Increasing(rows) && was <= rows && was != [] && hi == was[|was| - 1].position
    ensures Filter(InRange(lo, Some(hi)), rows) == was[PastIndex(was, lo)..]
  {
    hide Filter, PastIndex;
    var more := rows[|was|..];
    assert rows == was + more;
    PrefixIsIncreasing(was, rows);
    FilterConcat(InRange(lo, Some(hi)), was, more);
    AfterIsSuffix(was, lo, Some(hi));
    forall i | 0 <= i < |more| ensures more[i].position > hi {
      assert more[i] == rows[|was| + i] && was[|was| - 1] == rows[|was| - 1];
    }
    BeyondIsNothing(more, lo, hi);
  }

  /** Reading on from a cursor up to a high-water row of a prefix reads from that prefix alone. */
  lemma PageIsSlice(db: Database, p: nat, was: seq<EventRow>, lo: Option<nat>)
    requires Valid(db) && p < |db.projects| && was != [] && was <= Stream(db.events, p)
    ensures Select(db.events, p, lo, Some(was[|was| - 1].position)) == was[PastIndex(was, lo)..]
  {
    hide *;
    var rows, hi := Stream(db.events, p), was[|was| - 1].position;
    StreamIncreasing(db, p);
    SelectFromStream(db.events, p, lo, Some(hi));
    UpToRow(rows, was, lo, hi);
  }

  // ---- Appends between pages ----

  /** What others append in the first `n` gaps. */
  function Gaps(env: nat -> seq<Draft>, n: nat): seq<Draft> {
    if n == 0 then [] else Gaps(env, n - 1) + env(n - 1)
  }

  lemma {:induction false} AppendAllConcat(h: Digest, db: Database, a: seq<Draft>, b: seq<Draft>)
    ensures AppendAll(h, AppendAll(h, db, a), b) == AppendAll(h, db, a + b)
  {
    if b == [] {
      assert a + b == a;
    } else {
      assert (a + b)[..|a + b| - 1] == a + b[..|b| - 1];
      AppendAllConcat(h, db, a, b[..|b| - 1]);
    }
  }

  lemma StreamIsPrefix(h: Digest, db: Database, ds: seq<Draft>, p: nat)
    requires Valid(db) && p < |db.projects|
    ensures p < |AppendAll(h, db, ds).projects|
    ensures Stream(db.events, p) <= Stream(AppendAll(h, db, ds).events, p)
  {
    AppendsGrow(h, db, ds, p);
  }

  lemma {:induction false} AppendAllKeepsPaths(h: Digest, db: Database, ds: seq<Draft>, path: string)
    ensures FindProject(AppendAll(h, db, ds).projects, path) == FindProject(db.projects, path)
  {
    if ds != [] {
      var before := AppendAll(h, db, ds[..|ds| - 1]);
      AppendAllKeepsPaths(h, db, ds[..|ds| - 1], path);
      if Refusal(before, ds[|ds| - 1]).None? {
        BumpKeepsPaths(before.projects, FindProject(before.projects, ds[|ds| - 1].path).value, path);
      }
    }
  }

  // ---- The loops ----

  lemma NextPage(db: Database, path: string, p: nat, was: seq<EventRow>, cursor: Option<string>, lo: Option<nat>,
                 limit: Option<nat>)
    requires Valid(db) && FindProject(db.projects, path) == Some(p)
    requires was != [] && was <= Stream(db.events, p)
    requires OptionalCursor(db, p, cursor) == Ok(lo)
    ensures After(db, path, cursor, Some(was[|was| - 1].id), limit) == Ok(Take(was[PastIndex(was, lo)..], limit))
  {
    CursorOfRow(db, p, |was| - 1);
    assert was[|was| - 1] == Stream(db.events, p)[|was| - 1];
    PageIsSlice(db, p, was, lo);
  }

  lemma StreamIncreasing(db: Database, p: nat)
    requires Valid(db) && p < |db.projects|
    ensures Increasing(Stream(db.events, p))
  {
    assert InOrder(db, p);
  }

  lemma RowsHaveOwnIds(db: Database, p: nat, i: nat, j: nat)
    requires Valid(db) && p < |db.projects| && i < j < |Stream(db.events, p)|
    ensures Stream(db.events, p)[i].id != Stream(db.events, p)[j].id
  {
    CursorOfRow(db, p, i);
    CursorOfRow(db, p, j);
    StreamIncreasing(db, p);
    assert Stream(db.events, p)[i].position < Stream(db.events, p)[j].position;
  }

  /** Moving the cursor to row `j` leaves exactly the rows after it. */
  lemma CursorMoves(db: Database, p: nat, was: seq<EventRow>, j: nat)
    requires Valid(db) && p < |db.projects| && was <= Stream(db.events, p) && j < |was|
    ensures OptionalCursor(db, p, Some(was[j].id)) == Ok(Some(was[j].position))
    ensures PastIndex(was, Some(was[j].position)) == j + 1
  {
    hide PastIndex;
    CursorOfRow(db, p, j);
    StreamIncreasing(db, p);
    PrefixIsIncreasing(was, Stream(db.events, p));
    PastOwnIndex(was, j);
  }

  lemma PrefixIsIncreasing(was: seq<EventRow>, rows: seq<EventRow>)
    requires Increasing(rows) && was <= rows
    ensures Increasing(was)
  {
    assert forall i :: 0 <= i < |was| ==> was[i] == rows[i];
  }

  lemma PastOwnIndex(was: seq<EventRow>, j: nat)
    requires Increasing(was) && j < |was|
    ensures PastIndex(was, Some(was[j].position)) == j + 1
  {
    PastIndexSplits(was, Some(was[j].position), j);
    if j + 1 < |was| {
      PastIndexSplits(was, Some(was[j].position), j + 1);
    }
  }

  lemma HighWaterRow(db: Database, path: string)
    ensures
      var p := FindProject(db.projects, path);
      var rows := if p.Some? then Stream(db.events, p.value) else [];
      Latest(db, path, AnyRow(), 1) == if rows == [] then [] else [rows[|rows| - 1]]
  {
    var p := FindProject(db.projects, path);
    if p.Some? {
      FilterEvery(AnyRow(), Stream(db.events, p.value));
    }
  }

  /** Pages that cover `rows` in order: none empty, and only the last one short. */
  predicate PagesOf(pages: seq<seq<EventRow>>, rows: seq<EventRow>, size: int) {
    && Flatten(pages) == rows
    && forall k :: 0 <= k < |pages| ==> 0 < |pages[k]| <= size && (k + 1 < |pages| ==> |pages[k]| == size)
  }

  /** The rows a walk from `start` must deliver: those already there when it began, past the cursor. */
  function Owed(h: Digest, db: Database, path: string, start: Option<string>, first: seq<Draft>)
    : Result<seq<EventRow>, RepoError>
  {
    var project := FindProject(db.projects, path);
    if project.None? || Stream(db.events, project.value) == [] then Ok([])
    else
      var lo := OptionalCursor(AppendAll(h, db, first), project.value, start);
      if lo.Err? then Err(lo.error) else Ok(Select(db.events, project.value, lo.value, None))
  }

  lemma OwedIsSuffix(h: Digest, db: Database, path: string, p: nat, start: Option<string>, first: seq<Draft>)
    requires Valid(db) && FindProject(db.projects, path) == Some(p) && Stream(db.events, p) != []
    ensures
      var was, lo := Stream(db.events, p), OptionalCursor(AppendAll(h, db, first), p, start);
      Owed(h, db, path, start, first) == if lo.Err? then Err(lo.error) else Ok(was[PastIndex(was, lo.value)..])
  {
    var lo := OptionalCursor(AppendAll(h, db, first), p, start);
    if lo.Ok? {
      StreamIncreasing(db, p);
      SelectFromStream(db.events, p, lo.value, None);
      AfterIsSuffix(Stream(db.events, p), lo.value, None);
    }
  }

  // ---- A walk over fixed rows ----

  /** The pages so far are full and cover the rows from `start` to `n`. */
  predicate Walked(pages: seq<seq<EventRow>>, was: seq<EventRow>, start: nat, n: nat, size: int) {
    && start <= n <= |was|
    && Flatten(pages) == was[start..n]
    && forall k :: 0 <= k < |pages| ==> |pages[k]| == size
  }

  lemma WalkOn(pages: seq<seq<EventRow>>, was: seq<EventRow>, start: nat, n: nat, size: nat, batch: seq<EventRow>)
    requires Walked(pages, was, start, n, size) && size > 0
    requires batch == Take(was[n..], Some(size)) && batch != []
    ensures n + |batch| <= |was| && batch[|batch| - 1] == was[n + |batch| - 1]
    ensures n + |batch| < |was| ==> Walked(pages + [batch], was, start, n + |batch|, size)
    ensures n + |batch| == |was| ==> PagesOf(pages + [batch], was[start..], size)
  {
    hide Flatten;
    FlattenSnoc(pages, batch);
    assert batch == was[n..n + |batch|];
    assert was[start..n] + batch == was[start..n + |batch|];
  }

  lemma WalkEnds(pages: seq<seq<EventRow>>, was: seq<EventRow>, start: nat, n: nat, size: nat)
    requires Walked(pages, was, start, n, size) && size > 0
    requires Take(was[n..], Some(size)) == []
    ensures PagesOf(pages, was[start..], size)
  {
    assert n == |was|;
  }

  /** What a fetch returns after any appends: the next rows of the stream as it was. */
  lemma FetchFits(h: Digest, db: Database, ds: seq<Draft>, path: string, p: nat, was: seq<EventRow>,
                  cursor: Option<string>, size: nat)
    requires Valid(db) && FindProject(db.projects, path) == Some(p) && was != [] && was == Stream(db.events, p)
    ensures
      var now := AppendAll(h, db, ds);
      var lo := OptionalCursor(now, p, cursor);
      After(now, path, cursor, Some(was[|was| - 1].id), Some(size)) ==
      if lo.Err? then Err(lo.error) else Ok(Take(was[PastIndex(was, lo.value)..], Some(size)))
  {
    var now := AppendAll(h, db, ds);
    AppendAllValid(h, db, ds);
    StreamIsPrefix(h, db, ds, p);
    AppendAllKeepsPaths(h, db, ds, path);
    var lo := OptionalCursor(now, p, cursor);
    if lo.Ok? {
      NextPage(now, path, p, was, cursor, lo.value, Some(size));
    }
  }

  /** A walk in progress: what it has delivered since its start, and where its cursor stands. */
  ghost predicate Walking(h: Digest, db: Database, env: nat -> seq<Draft>, p: nat, was: seq<EventRow>,
                          start: Option<string>, cursor: Option<string>, pages: seq<seq<EventRow>>, n: nat, size: nat)
  {
    var lo := OptionalCursor(AppendAll(h, db, Gaps(env, 1)), p, start);
    var at := OptionalCursor(AppendAll(h, db, Gaps(env, |pages| + 1)), p, cursor);
    if lo.Err? then at == lo && pages == []
    else at.Ok? && n == PastIndex(was, at.value) && Walked(pages, was, PastIndex(was, lo.value), n, size)
  }

  /** What a walk that ends here must have delivered. */
  ghost predicate Delivered(h: Digest, db: Database, env: nat -> seq<Draft>, p: nat, was: seq<EventRow>,
                            start: Option<string>, r: Result<seq<seq<EventRow>>, RepoError>, size: nat)
  {
    var lo := OptionalCursor(AppendAll(h, db, Gaps(env, 1)), p, start);
    if lo.Err? then r == Err(lo.error) else r.Ok? && PagesOf(r.value, was[PastIndex(was, lo.value)..], size)
  }

  lemma WalkBegins(h: Digest, db: Database, env: nat -> seq<Draft>, p: nat, was: seq<EventRow>, start: Option<string>,
                   size: nat)
    returns (n: nat)
    ensures n <= |was| && Walking(h, db, env, p, was, start, start, [], n, size)
    ensures Gaps(env, 1) == env(0)
  {
    var at := OptionalCursor(AppendAll(h, db, Gaps(env, 1)), p, start);
    n := if at.Ok? then PastIndex(was, at.value) else 0;
  }

  lemma OnlyLastHasLastId(db: Database, p: nat, was: seq<EventRow>, j: nat)
    requires Valid(db) && p < |db.projects| && was == Stream(db.events, p) && j < |was|
    ensures was[j].id == was[|was| - 1].id <==> j == |was| - 1
  {
    if j < |was| - 1 {
      RowsHaveOwnIds(db, p, j, |was| - 1);
    }
  }

  lemma WalkStops(h: Digest, db: Database, env: nat -> seq<Draft>, path: string, p: nat, was: seq<EventRow>,
                  start: Option<string>, cursor: Option<string>, pages: seq<seq<EventRow>>, n: nat, size: nat,
                  fetched: Result<seq<EventRow>, RepoError>)
    requires Valid(db) && FindProject(db.projects, path) == Some(p) && was != [] && was == Stream(db.events, p)
    requires Walking(h, db, env, p, was, start, cursor, pages, n, size) && size > 0
    requires fetched ==
             After(AppendAll(h, db, Gaps(env, |pages| + 1)), path, cursor, Some(was[|was| - 1].id), Some(size))
    ensures fetched.Err? ==> Delivered(h, db, env, p, was, start, Err(fetched.error), size)
    ensures fetched == Ok([]) ==> Delivered(h, db, env, p, was, start, Ok(pages), size)
  {
    hide Valid, After, AppendAll, Stream, FindProject, PastIndex, Take, OptionalCursor;
    FetchFits(h, db, Gaps(env, |pages| + 1), path, p, was, cursor, size);
    var lo := OptionalCursor(AppendAll(h, db, Gaps(env, 1)), p, start);
    if lo.Ok? && fetched == Ok([]) {
      WalkEnds(pages, was, PastIndex(was, lo.value), n, size);
    }
  }

  lemma WalkSteps(h: Digest, db: Database, env: nat -> seq<Draft>, path: string, p: nat, was: seq<EventRow>,
                  start: Option<string>, cursor: Option<string>, pages: seq<seq<EventRow>>, n: nat, size: nat,
                  batch: seq<EventRow>)
    requires Valid(db) && FindProject(db.projects, path) == Some(p) && was != [] && was == Stream(db.events, p)
    requires Walking(h, db, env, p, was, start, cursor, pages, n, size) && size > 0 && batch != []
    requires Ok(batch) ==
             After(AppendAll(h, db, Gaps(env, |pages| + 1)), path, cursor, Some(was[|was| - 1].id), Some(size))
    ensures n + |batch| <= |was| && batch[|batch| - 1] == was[n + |batch| - 1]
    ensures n + |batch| == |was| ==> Delivered(h, db, env, p, was, start, Ok(pages + [batch]), size)
    ensures n + |batch| < |was| ==>
      Walking(h, db, env, p, was, start, Some(batch[|batch| - 1].id), pages + [batch], n + |batch|, size)
  {
    hide Valid, After, AppendAll, Stream, FindProject, PastIndex, Take, OptionalCursor;
    FetchFits(h, db, Gaps(env, |pages| + 1), path, p, was, cursor, size);
    var lo := OptionalCursor(AppendAll(h, db, Gaps(env, 1)), p, start);
    WalkOn(pages, was, PastIndex(was, lo.value), n, size, batch);
    var gaps := Gaps(env, |pages + [batch]| + 1);
    AppendAllValid(h, db, gaps);
    StreamIsPrefix(h, db, gaps, p);
    CursorMoves(AppendAll(h, db, gaps), p, was, n + |batch| - 1);
  }

  /** `iter_event_pages_through_cursor`; `env(k)` is what others append before the k-th fetch. */
  method IterEventPages(repo: Repository, path: string, batchSize: int, start: Option<string>, env: nat -> seq<Draft>)
    returns (r: Result<seq<seq<EventRow>>, RepoError>, ghost gaps: nat)
    requires Valid(repo.Db())
    modifies repo
    ensures Valid(repo.Db()) && repo.Db() == AppendAll(repo.digest, old(repo.Db()), Gaps(env, gaps))
    ensures batchSize < 1 ==> r == Err(BadBatchSize)
    ensures batchSize >= 1 ==>
      var owed := Owed(repo.digest, old(repo.Db()), path, start, Gaps(env, 1));
      if owed.Err? then r == Err(owed.error) else r.Ok? && PagesOf(r.value, owed.value, batchSize)
  {
    gaps := 0;
    if batchSize < 1 {
      return Err(BadBatchSize), 0;
    }
    ghost var h, db := repo.digest, repo.Db();
    var highWater := repo.ListEvents(path, AnyRow(), 1);
    HighWaterRow(db, path);
    if highWater == [] {
      return Ok([]), 0;
    }
    var through := highWater[|highWater| - 1].id;
    ghost var p := FindProject(db.projects, path).value;
    ghost var was := Stream(db.events, p);
    r, gaps := WalkPages(repo, path, batchSize, start, env, p, was, through);
    OwedIsSuffix(h, db, path, p, start, Gaps(env, 1));
  }

  method WalkPages(repo: Repository, path: string, batchSize: nat, start: Option<string>, env: nat -> seq<Draft>,
                   ghost p: nat, ghost was: seq<EventRow>, through: string)
    returns (r: Result<seq<seq<EventRow>>, RepoError>, ghost gaps: nat)
    requires Valid(repo.Db()) && FindProject(repo.projects, path) == Some(p)
    requires was != [] && was == Stream(repo.events, p) && through == was[|was| - 1].id
    requires batchSize >= 1
    modifies repo
    ensures Valid(repo.Db()) && repo.Db() == AppendAll(repo.digest, old(repo.Db()), Gaps(env, gaps))
    ensures Delivered(repo.digest, old(repo.Db()), env, p, was, start, r, batchSize)
  {
    hide Valid, After, OptionalCursor, AppendAll, Stream, FindProject, PastIndex, Walking;
    ghost var h, db := repo.digest, repo.Db();
    var cursor := start;
    var pages: seq<seq<EventRow>> := [];
    repo.AppendMany(env(0));
    ghost var n := WalkBegins(h, db, env, p, was, start, batchSize);
    while true
      invariant Valid(repo.Db()) && repo.Db() == AppendAll(h, db, Gaps(env, |pages| + 1))
      invariant n <= |was| && Walking(h, db, env, p, was, start, cursor, pages, n, batchSize)
      decreases |was| - n
    {
      gaps := |pages| + 1;
      var fetched := repo.ListEventsAfter(path, cursor, Some(through), Some(batchSize));
      WalkStops(h, db, env, path, p, was, start, cursor, pages, n, batchSize, fetched);
      if fetched.Err? {
        return Err(fetched.error), gaps;
      }
      var batch := fetched.value;
      if batch == [] {
        return Ok(pages), gaps;
      }
      WalkSteps(h, db, env, path, p, was, start, cursor, pages, n, batchSize, batch);
      pages, n := pages + [batch], n + |batch|;
      AppendAllConcat(h, db, Gaps(env, gaps), env(gaps));
      repo.AppendMany(env(|pages|));
      gaps := gaps + 1;
      cursor := Some(batch[|batch| - 1].id);
      OnlyLastHasLastId(db, p, was, n - 1);
      if cursor == Some(through) {
        return Ok(pages), gaps;
      }
    }
  }
}
