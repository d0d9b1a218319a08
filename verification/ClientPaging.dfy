/** Following `next_cursor` through the visibility filter of `list_events` (`server/tools/events.py`). */
module ClientPaging {
  import opened Wrappers
  import opened Events
  import opened Integrity
  import opened Sequences
  import opened EventRepository
  import opened Paging
  import opened EventTools

  /** The rows a client's query matches, hidden ones included. */
  function Matching(db: Database, path: string, keep: EventRow -> bool): seq<EventRow> {
    var project := FindProject(db.projects, path);
    if project.None? then [] else Filter(keep, Stream(db.events, project.value))
  }

  datatype Status = Reading | Finished | Stuck | Refused

  // What the client holds: where to go on, what it was shown, and how it stands.
  datatype Client = Client(cursor: Option<string>, seen: seq<EventRow>, status: Status)

  /** One call. A page that says more follows but names no cursor leaves nothing to go on from. */
  function Call(db: Database, path: string, keep: EventRow -> bool, vis: EventRow -> bool, limit: nat, c: Client)
    : Client
  {
    var served := ServePage(db, path, keep, vis, c.cursor, limit);
    if c.status != Reading then c
    else if served.Err? then c.(status := Refused)
    else
      var page := served.value;
      Client(page.nextCursor, c.seen + page.events,
             if !page.hasMore then Finished else if page.nextCursor.None? then Stuck else Reading)
  }

  /** `k` calls, the j-th against the tables as they stand then. */
  function Follow(dbs: nat -> Database, path: string, keep: EventRow -> bool, vis: EventRow -> bool, limit: nat, k: nat)
    : Client
  {
    if k == 0 then Client(None, [], Reading)
    else Call(dbs(k - 1), path, keep, vis, limit, Follow(dbs, path, keep, vis, limit, k - 1))
  }

  // ---- The same client by row index ----

  datatype Reader = Reader(next: nat, seen: seq<EventRow>, status: Status)

  function LastKept<T>(keep: T -> bool, s: seq<T>): (n: nat)
    requires Filter(keep, s) != []
    ensures n < |s| && keep(s[n])
  {
    if keep(s[|s| - 1]) then |s| - 1 else LastKept(keep, s[..|s| - 1])
  }

  lemma {:induction false} LastKeptEndsFilter<T>(keep: T -> bool, s: seq<T>)
    requires Filter(keep, s) != []
    ensures
      var n, kept := LastKept(keep, s), Filter(keep, s);
      kept[|kept| - 1] == s[n] && Filter(keep, s[..n + 1]) == kept
  {
    if keep(s[|s| - 1]) {
      assert s[..|s|] == s;
    } else {
      var front := s[..|s| - 1];
      LastKeptEndsFilter(keep, front);
      assert front[..LastKept(keep, front) + 1] == s[..LastKept(keep, front) + 1];
    }
  }

  function Advance(rows: seq<EventRow>, vis: EventRow -> bool, limit: nat, r: Reader): Reader
    requires r.next <= |rows|
  {
    if r.status != Reading then r
    else if r.next + limit >= |rows| then Reader(|rows|, r.seen + Filter(vis, rows[r.next..]), Finished)
    else
      var page := rows[r.next..r.next + limit];
      if Filter(vis, page) == [] then r.(status := Stuck)
      else Reader(r.next + LastKept(vis, page) + 1, r.seen + Filter(vis, page), Reading)
  }

  function CursorAt(rows: seq<EventRow>, n: nat): Option<string>
    requires n <= |rows|
  {
    if n == 0 then None else Some(rows[n - 1].id)
  }

  /** Client and reader have seen the same and stand at the same place; all visible rows before it were shown. */
  predicate InStep(rows: seq<EventRow>, vis: EventRow -> bool, c: Client, r: Reader) {
    && r.next <= |rows|
    && c.seen == r.seen == Filter(vis, rows[..r.next])
    && c.status == r.status
    && (r.status == Reading ==> c.cursor == CursorAt(rows, r.next))
  }

  lemma {:induction false} FilterIncreasing(rows: seq<EventRow>, keep: EventRow -> bool)
    requires Increasing(rows)
    ensures Increasing(Filter(keep, rows))
    ensures forall i :: 0 <= i < |Filter(keep, rows)| ==> Filter(keep, rows)[i] in rows
  {
    if rows != [] {
      var front, last := rows[..|rows| - 1], rows[|rows| - 1];
      FilterIncreasing(front, keep);
      var kept := Filter(keep, front);
      forall i | 0 <= i < |kept| ensures kept[i] in rows && kept[i].position < last.position {
        var j :| 0 <= j < |front| && front[j] == kept[i];
        assert rows[j] == kept[i];
      }
    }
  }

  /** The raw page that a cursor at row `n` of the matching rows fetches. */
  lemma RawPageAt(db: Database, path: string, keep: EventRow -> bool, n: nat, limit: nat)
    requires Valid(db) && n <= |Matching(db, path, keep)|
    ensures
      var rows := Matching(db, path, keep);
      Paginated(db, path, keep, CursorAt(rows, n), limit) ==
      Ok(if n + limit < |rows| then RawPage(rows[n..n + limit], true) else RawPage(rows[n..], false))
  {
    hide Valid, Stream, Select, Filter, PastIndex;
    var project := FindProject(db.projects, path);
    if project.Some? {
      var p := project.value;
      var whole, rows := Stream(db.events, p), Matching(db, path, keep);
      StreamIncreasing(db, p);
      FilterIncreasing(whole, keep);
      var lo := if n == 0 then None else Some(rows[n - 1].position);
      if n > 0 {
        var j :| 0 <= j < |whole| && whole[j] == rows[n - 1];
        CursorOfRow(db, p, j);
      }
      assert OptionalCursor(db, p, CursorAt(rows, n)) == Ok(lo);
      SelectFromStream(db.events, p, lo, None);
      FilterSwap(InRange(lo, None), keep, whole);
      AfterIsSuffix(rows, lo, None);
      IndexOfCursor(rows, n);
      var rest := Filter(keep, Select(db.events, p, lo, None));
      assert rest == rows[n..];
      if n + limit < |rows| {
        assert rest[..limit] == rows[n..n + limit];
      }
    }
  }

  lemma IndexOfCursor(rows: seq<EventRow>, n: nat)
    requires Increasing(rows) && n <= |rows|
    ensures PastIndex(rows, if n == 0 then None else Some(rows[n - 1].position)) == n
  {
    if n > 0 {
      PastOwnIndex(rows, n - 1);
    }
  }

  /** A call against tables whose matching rows extend what was read keeps client and reader in step. */
  lemma CallInStep(db: Database, path: string, keep: EventRow -> bool, vis: EventRow -> bool, limit: nat,
                   c: Client, r: Reader)
    requires Valid(db) && InStep(Matching(db, path, keep), vis, c, r)
    ensures
      var rows := Matching(db, path, keep);
      InStep(rows, vis, Call(db, path, keep, vis, limit, c), Advance(rows, vis, limit, r))
  {
    hide Valid, Matching, Filter, Paginated;
    var rows := Matching(db, path, keep);
    if r.status == Reading {
      RawPageAt(db, path, keep, r.next, limit);
      if r.next + limit >= |rows| {
        assert rows[..|rows|] == rows[..r.next] + rows[r.next..];
        FilterConcat(vis, rows[..r.next], rows[r.next..]);
      } else {
        var page := rows[r.next..r.next + limit];
        if Filter(vis, page) != [] {
          LastKeptEndsFilter(vis, page);
          var n := LastKept(vis, page);
          assert rows[..r.next + n + 1] == rows[..r.next] + page[..n + 1];
          FilterConcat(vis, rows[..r.next], page[..n + 1]);
        } else {
          assert r.seen + [] == r.seen;
        }
      }
    }
  }

  // ---- A log that grows between calls ----

  ghost predicate GrowsAt(dbs: nat -> Database, path: string, keep: EventRow -> bool, k: nat) {
    Valid(dbs(k)) && Matching(dbs(k), path, keep) <= Matching(dbs(k + 1), path, keep)
  }

  ghost predicate Grows(dbs: nat -> Database, path: string, keep: EventRow -> bool) {
    forall k: nat :: GrowsAt(dbs, path, keep, k)
  }

  function Read(dbs: nat -> Database, path: string, keep: EventRow -> bool, vis: EventRow -> bool, limit: nat, k: nat)
    : (r: Reader)
  {
    if k == 0 then Reader(0, [], Reading)
    else
      var r := Read(dbs, path, keep, vis, limit, k - 1);
      var rows := Matching(dbs(k - 1), path, keep);
      if r.next <= |rows| then Advance(rows, vis, limit, r) else r
  }

  lemma {:induction false} FollowInStep(dbs: nat -> Database, path: string, keep: EventRow -> bool,
                                        vis: EventRow -> bool, limit: nat, k: nat)
    requires Grows(dbs, path, keep)
    ensures InStep(Matching(dbs(k), path, keep), vis, Follow(dbs, path, keep, vis, limit, k),
                   Read(dbs, path, keep, vis, limit, k))
  {
    hide Matching, Call, Advance, Filter;
    if k > 0 {
      FollowInStep(dbs, path, keep, vis, limit, k - 1);
      assert GrowsAt(dbs, path, keep, k - 1);
      var c, r := Follow(dbs, path, keep, vis, limit, k - 1), Read(dbs, path, keep, vis, limit, k - 1);
      CallInStep(dbs(k - 1), path, keep, vis, limit, c, r);
      StaysInStep(Matching(dbs(k - 1), path, keep), Matching(dbs(k), path, keep), vis,
                  Follow(dbs, path, keep, vis, limit, k), Read(dbs, path, keep, vis, limit, k));
    } else {
      assert Matching(dbs(0), path, keep)[..0] == [];
      assert Filter(vis, []) == [] by {
        FilterNone(vis, []);
      }
    }
  }

  lemma StaysInStep(was: seq<EventRow>, rows: seq<EventRow>, vis: EventRow -> bool, c: Client, r: Reader)
    requires was <= rows && InStep(was, vis, c, r)
    ensures InStep(rows, vis, c, r)
  {
    assert was[..r.next] == rows[..r.next];
  }

  /** Whatever is appended between calls, the client has been shown exactly the visible rows up to some
      point of the log, each once and in order; if its last call ended the walk, all there were. */
  lemma NothingLostOrRepeated(dbs: nat -> Database, path: string, keep: EventRow -> bool, vis: EventRow -> bool,
                              limit: nat, k: nat)
    requires Grows(dbs, path, keep)
    ensures
      var c, all := Follow(dbs, path, keep, vis, limit, k), Filter(vis, Matching(dbs(k), path, keep));
      && c.seen <= all
      && c.status != Refused
      && (c.status == Reading && Follow(dbs, path, keep, vis, limit, k + 1).status == Finished ==>
            Follow(dbs, path, keep, vis, limit, k + 1).seen == all)
  {
    hide Matching, Call, Filter;
    FollowInStep(dbs, path, keep, vis, limit, k);
    assert GrowsAt(dbs, path, keep, k);
    var rows := Matching(dbs(k), path, keep);
    var c, r := Follow(dbs, path, keep, vis, limit, k), Read(dbs, path, keep, vis, limit, k);
    assert rows == rows[..r.next] + rows[r.next..];
    FilterConcat(vis, rows[..r.next], rows[r.next..]);
    NeverRefused(dbs, path, keep, vis, limit, k);
    CallInStep(dbs(k), path, keep, vis, limit, c, r);
  }

  lemma {:induction false} NeverRefused(dbs: nat -> Database, path: string, keep: EventRow -> bool,
                                        vis: EventRow -> bool, limit: nat, k: nat)
    ensures Read(dbs, path, keep, vis, limit, k).status != Refused
  {
    hide Matching, Filter;
    if k > 0 {
      NeverRefused(dbs, path, keep, vis, limit, k - 1);
    }
  }

  // ---- A fixed log ----

  predicate BlockedAt(rows: seq<EventRow>, vis: EventRow -> bool, limit: nat, s: nat) {
    && s + limit < |rows|
    && (s > 0 ==> vis(rows[s - 1]))
    && Rejected(vis, rows[s..s + limit])
  }

  /** At the start, or right after a visible row, a full page of hidden rows stands before a further row. */
  predicate Blocked(rows: seq<EventRow>, vis: EventRow -> bool, limit: nat) {
    exists s :: 0 <= s < |rows| && BlockedAt(rows, vis, limit, s)
  }

  function Fixed(db: Database): nat -> Database {
    (k: nat) => db
  }

  lemma FixedGrows(db: Database, path: string, keep: EventRow -> bool)
    requires Valid(db)
    ensures Grows(Fixed(db), path, keep)
  {
    forall k: nat ensures GrowsAt(Fixed(db), path, keep, k) {
    }
  }

  lemma RejectedFilter<T>(keep: T -> bool, s: seq<T>)
    ensures Filter(keep, s) == [] <==> Rejected(keep, s)
  {
    if Rejected(keep, s) {
      FilterNone(keep, s);
    } else {
      var i :| 0 <= i < |s| && keep(s[i]);
      FilterMember(keep, s, s[i]);
    }
  }

  /** A reader still reading stands at the start or after a visible row; one that stopped is blocked. */
  predicate WellPlaced(rows: seq<EventRow>, vis: EventRow -> bool, limit: nat, r: Reader) {
    && r.next <= |rows|
    && (r.status == Reading && r.next > 0 ==> vis(rows[r.next - 1]))
    && (r.status == Stuck ==> BlockedAt(rows, vis, limit, r.next))
  }

  predicate HeldBy(r: Reader, s: nat) {
    r.next <= s && r.status != Finished
  }

  lemma AdvanceMoves(rows: seq<EventRow>, vis: EventRow -> bool, limit: nat, r: Reader)
    requires WellPlaced(rows, vis, limit, r)
    ensures
      var next := Advance(rows, vis, limit, r);
      WellPlaced(rows, vis, limit, next) && (next.status == Reading ==> next.next > r.next)
  {
    hide Filter;
    if r.status == Reading && r.next + limit < |rows| {
      var page := rows[r.next..r.next + limit];
      RejectedFilter(vis, page);
      if Filter(vis, page) != [] {
        assert rows[r.next + LastKept(vis, page)] == page[LastKept(vis, page)];
      }
    }
  }

  lemma AdvanceHeld(rows: seq<EventRow>, vis: EventRow -> bool, limit: nat, r: Reader, s: nat)
    requires r.next <= |rows| && HeldBy(r, s) && BlockedAt(rows, vis, limit, s)
    ensures HeldBy(Advance(rows, vis, limit, r), s)
  {
    hide Filter;
    forall i | s <= i < s + limit ensures !vis(rows[i]) {
      assert rows[s..s + limit][i - s] == rows[i];
    }
    if r.status == Reading {
      var page := rows[r.next..r.next + limit];
      if Filter(vis, page) != [] {
        assert rows[r.next + LastKept(vis, page)] == page[LastKept(vis, page)];
      }
    }
  }

  lemma {:induction false} ReaderProgress(db: Database, path: string, keep: EventRow -> bool, vis: EventRow -> bool,
                                          limit: nat, k: nat)
    ensures
      var r := Read(Fixed(db), path, keep, vis, limit, k);
      WellPlaced(Matching(db, path, keep), vis, limit, r) && (r.status == Reading ==> r.next >= k)
  {
    hide Matching, WellPlaced, Advance;
    var rows := Matching(db, path, keep);
    if k > 0 {
      ReaderProgress(db, path, keep, vis, limit, k - 1);
      AdvanceMoves(rows, vis, limit, Read(Fixed(db), path, keep, vis, limit, k - 1));
      StopsForGood(rows, vis, limit, Read(Fixed(db), path, keep, vis, limit, k - 1));
    } else {
      StartsWell(rows, vis, limit);
    }
  }

  lemma StartsWell(rows: seq<EventRow>, vis: EventRow -> bool, limit: nat)
    ensures WellPlaced(rows, vis, limit, Reader(0, [], Reading))
  {
  }

  lemma StopsForGood(rows: seq<EventRow>, vis: EventRow -> bool, limit: nat, r: Reader)
    requires WellPlaced(rows, vis, limit, r)
    ensures r.next <= |rows|
    ensures Advance(rows, vis, limit, r).status == Reading ==> r.status == Reading
  {
  }

  lemma {:induction false} ReaderHeld(db: Database, path: string, keep: EventRow -> bool, vis: EventRow -> bool,
                                      limit: nat, k: nat, s: nat)
    requires BlockedAt(Matching(db, path, keep), vis, limit, s)
    ensures HeldBy(Read(Fixed(db), path, keep, vis, limit, k), s)
  {
    if k > 0 {
      hide Matching, Advance, BlockedAt;
      ReaderHeld(db, path, keep, vis, limit, k - 1, s);
      var rows, r := Matching(db, path, keep), Read(Fixed(db), path, keep, vis, limit, k - 1);
      if r.next <= |rows| {
        AdvanceHeld(rows, vis, limit, r, s);
      }
    }
  }

  /** On a fixed log the walk ends within one call per row and one more: with every visible row shown,
      each once and in order, exactly when the log is nowhere blocked, and stuck otherwise. */
  lemma WalkCompletesExactly(db: Database, path: string, keep: EventRow -> bool, vis: EventRow -> bool, limit: nat)
    requires Valid(db)
    ensures
      var rows := Matching(db, path, keep);
      var c := Follow(Fixed(db), path, keep, vis, limit, |rows| + 1);
      && (c.status == Finished <==> !Blocked(rows, vis, limit))
      && (c.status == Stuck <==> Blocked(rows, vis, limit))
      && (c.status == Finished ==> c.seen == Filter(vis, rows))
  {
    var rows := Matching(db, path, keep);
    var k := |rows| + 1;
    FixedGrows(db, path, keep);
    FollowInStep(Fixed(db), path, keep, vis, limit, k);
    NeverRefused(Fixed(db), path, keep, vis, limit, k);
    ReaderProgress(db, path, keep, vis, limit, k);
    if Blocked(rows, vis, limit) {
      var s :| 0 <= s < |rows| && BlockedAt(rows, vis, limit, s);
      ReaderHeld(db, path, keep, vis, limit, k, s);
    }
    FinishedAtEnd(db, path, keep, vis, limit, k);
    assert rows[..|rows|] == rows;
  }

  lemma {:induction false} FinishedAtEnd(db: Database, path: string, keep: EventRow -> bool, vis: EventRow -> bool,
                                         limit: nat, k: nat)
    ensures
      var r := Read(Fixed(db), path, keep, vis, limit, k);
      r.status == Finished ==> r.next == |Matching(db, path, keep)|
  {
    if k > 0 {
      FinishedAtEnd(db, path, keep, vis, limit, k - 1);
    }
  }

  /** Appends, the tools' own audit records among them, only extend what a query matches. */
  lemma AppendsExtendMatching(h: Digest, db: Database, ds: seq<Draft>, path: string, keep: EventRow -> bool)
    requires Valid(db)
    ensures Matching(db, path, keep) <= Matching(AppendAll(h, db, ds), path, keep)
  {
    AppendAllKeepsPaths(h, db, ds, path);
    var project := FindProject(db.projects, path);
    if project.Some? {
      var was, now := Stream(db.events, project.value), Stream(AppendAll(h, db, ds).events, project.value);
      StreamIsPrefix(h, db, ds, project.value);
      assert now == was + now[|was|..];
      FilterConcat(keep, was, now[|was|..]);
    }
  }
}
