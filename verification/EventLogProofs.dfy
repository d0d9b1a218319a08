/** What any run of appends does to a project's stream and to its hash chain. */
module EventLogProofs {
  import opened Wrappers
  import opened Json
  import opened Events
  import opened Sequences
  import opened Integrity
  import opened EventRepository

  /** The drafts of a run that land in project `p`, in order. */
  function Landed(h: Digest, db: Database, ds: seq<Draft>, p: nat): seq<Draft> {
    if ds == [] then []
    else
      var front, d := ds[..|ds| - 1], ds[|ds| - 1];
      var before := AppendAll(h, db, front);
      Landed(h, db, front, p) +
        (if Refusal(before, d).None? && FindProject(before.projects, d.path) == Some(p) then [d] else [])
  }

  /** A landed row carries its draft's payload hashed onto the row before it. */
  predicate Chains(h: Digest, rows: seq<EventRow>, k: nat, d: Draft)
    requires k < |rows|
  {
    var prev := if k == 0 then None else ExtractStored(rows[k - 1].stored);
    rows[k].stored == Some(Attach(h, Body(d.payload), prev)) && rows[k].id == d.id
  }

  ghost predicate LandedAt(h: Digest, sessions: seq<Session>, rows: seq<EventRow>, start: nat, next: nat,
                     landed: seq<Draft>, k: nat)
    requires k < |landed| && start + |landed| <= |rows|
  {
    && rows[start + k].position == next + k && Chains(h, rows, start + k, landed[k])
    && landed[k].session < |sessions| && RecordsDraft(rows[start + k], landed[k], sessions[landed[k].session].agent)
  }

  /** `rows` are `was` followed by one row per landed draft, at consecutive positions from `next`. */
  ghost predicate RowsGrown(h: Digest, sessions: seq<Session>, was: seq<EventRow>, rows: seq<EventRow>, next: nat,
                      landed: seq<Draft>)
  {
    && |rows| == |was| + |landed|
    && rows[..|was|] == was
    && forall k :: 0 <= k < |landed| ==> LandedAt(h, sessions, rows, |was|, next, landed, k)
  }

  /** The stream of `p` grows by exactly the landed drafts, at consecutive positions from the old counter. */
  ghost predicate GrownBy(h: Digest, db: Database, r: Database, p: nat, landed: seq<Draft>)
    requires p < |db.projects|
  {
    && |r.projects| == |db.projects|
    && r.projects[p] == Project(db.projects[p].path, db.projects[p].nextPosition + |landed|)
    && r.sessions == db.sessions
    && RowsGrown(h, db.sessions, Stream(db.events, p), Stream(r.events, p), db.projects[p].nextPosition, landed)
  }

  lemma GrowRows(h: Digest, sessions: seq<Session>, was: seq<EventRow>, rows: seq<EventRow>, next: nat,
                 landed: seq<Draft>, row: EventRow, d: Draft)
    requires RowsGrown(h, sessions, was, rows, next, landed)
    requires row.position == next + |landed| && row.id == d.id
    requires d.session < |sessions| && RecordsDraft(row, d, sessions[d.session].agent)
    requires row.stored ==
             Some(Attach(h, Body(d.payload), if rows == [] then None else ExtractStored(rows[|rows| - 1].stored)))
    ensures RowsGrown(h, sessions, was, rows + [row], next, landed + [d])
  {
    hide RecordsDraft;
    var grown := rows + [row];
    assert grown[..|was|] == rows[..|was|];
    forall k | 0 <= k < |landed| + 1 ensures LandedAt(h, sessions, grown, |was|, next, landed + [d], k) {
      if k < |landed| {
        assert LandedAt(h, sessions, rows, |was|, next, landed, k);
      }
    }
  }

  lemma GrowOne(h: Digest, db: Database, before: Database, p: nat, landed: seq<Draft>, d: Draft)
    requires p < |db.projects| && Valid(before) && GrownBy(h, db, before, p, landed)
    requires Refusal(before, d).None? && FindProject(before.projects, d.path) == Some(p)
    ensures GrownBy(h, db, Append(h, before, d), p, landed + [d])
  {
    var row := NewRow(h, before, d, p);
    SelectSnoc(before.events, row, p, None, None);
    NewRowRecords(h, before, d, p);
    GrowRows(h, db.sessions, Stream(db.events, p), Stream(before.events, p), db.projects[p].nextPosition, landed, row,
             d);
  }

  lemma GrowElsewhere(h: Digest, db: Database, before: Database, p: nat, landed: seq<Draft>, d: Draft)
    requires p < |db.projects| && Valid(before) && GrownBy(h, db, before, p, landed)
    requires Refusal(before, d).Some? || FindProject(before.projects, d.path) != Some(p)
    ensures GrownBy(h, db, Append(h, before, d), p, landed)
  {
    if Refusal(before, d).None? {
      var q := FindProject(before.projects, d.path).value;
      SelectSnoc(before.events, NewRow(h, before, d, q), p, None, None);
      assert Stream(Append(h, before, d).events, p) == Stream(before.events, p);
    }
  }

  /** Positions are consecutive and the counter stays one past the last, over any run of appends. */
  lemma {:induction false} AppendsGrow(h: Digest, db: Database, ds: seq<Draft>, p: nat)
    requires Valid(db) && p < |db.projects|
    ensures GrownBy(h, db, AppendAll(h, db, ds), p, Landed(h, db, ds, p))
  {
    if ds != [] {
      var front, d := ds[..|ds| - 1], ds[|ds| - 1];
      AppendsGrow(h, db, front, p);
      AppendAllValid(h, db, front);
      var before := AppendAll(h, db, front);
      var landed := Landed(h, db, front, p);
      if Refusal(before, d).None? && FindProject(before.projects, d.path) == Some(p) {
        GrowOne(h, db, before, p, landed, d);
      } else {
        GrowElsewhere(h, db, before, p, landed, d);
        assert landed + [] == landed;
      }
    }
  }

  lemma PrefixKeepsVerdict(h: Digest, rows: seq<Stored>, grown: seq<Stored>, k: nat)
    requires |rows| <= |grown| && grown[..|rows|] == rows && k < |rows|
    ensures BadAt(h, grown, k) <==> BadAt(h, rows, k)
  {
    assert grown[k] == rows[k];
    if k > 0 {
      assert grown[k - 1] == grown[..|rows|][k - 1];
    }
  }

  /** The verifier reports of an appended event nothing, unless something other than an object
      sat under its `_meta`; what it reports of the rows before is unchanged. */
  lemma AppendThenVerify(h: Digest, db: Database, ds: seq<Draft>, p: nat, k: nat)
    requires Valid(db) && p < |db.projects| && Digests(h)
    requires k < |Stream(AppendAll(h, db, ds).events, p)|
    ensures
      var n := |Stream(db.events, p)|;
      var was, now := PayloadsOf(Stream(db.events, p)), PayloadsOf(Stream(AppendAll(h, db, ds).events, p));
      var landed := Landed(h, db, ds, p);
      && |now| == n + |landed|
      && (k < n ==> (BadAt(h, now, k) <==> BadAt(h, was, k)))
      && (k >= n && MetaOk(Body(landed[k - n].payload)) ==> !BadAt(h, now, k))
      && (k >= n && CollisionFree(h) && !MetaOk(Body(landed[k - n].payload)) ==> BadAt(h, now, k))
  {
    AppendsGrow(h, db, ds, p);
    var r := AppendAll(h, db, ds);
    var was, now := PayloadsOf(Stream(db.events, p)), PayloadsOf(Stream(r.events, p));
    var landed := Landed(h, db, ds, p);
    var n := |was|;
    if k < n {
      assert now[..n] == was;
      PrefixKeepsVerdict(h, was, now, k);
    } else {
      var rows := Stream(r.events, p);
      assert LandedAt(h, db.sessions, rows, n, db.projects[p].nextPosition, landed, k - n);
      var prev := if k == 0 then None else ExtractStored(rows[k - 1].stored);
      var body := Body(landed[k - n].payload);
      assert PrevAt(now, k) == if prev.Some? then prev.value else GENESIS;
      if MetaOk(body) {
        AttachVerifies(h, body, prev, PrevAt(now, k));
      } else if CollisionFree(h) {
        AttachVerdict(h, body, prev, PrevAt(now, k));
      }
    }
  }

  predicate AllMetaOk(ds: seq<Draft>) {
    forall d :: d in ds ==> MetaOk(Body(d.payload))
  }

  lemma {:induction false} LandedSubset(h: Digest, db: Database, ds: seq<Draft>, p: nat, d: Draft)
    requires d in Landed(h, db, ds, p)
    ensures d in ds
  {
    var front := ds[..|ds| - 1];
    assert ds == front + [ds[|ds| - 1]];
    if d in Landed(h, db, front, p) {
      LandedSubset(h, db, front, p, d);
    }
  }

  /** From a clean stream (an empty one, or a legacy one without hashes), any appends verify clean. */
  lemma AppendsVerifyClean(h: Digest, db: Database, ds: seq<Draft>, p: nat)
    requires Valid(db) && p < |db.projects| && Digests(h)
    requires Clean(h, PayloadsOf(Stream(db.events, p)))
    requires AllMetaOk(ds)
    ensures var rows := PayloadsOf(Stream(AppendAll(h, db, ds).events, p));
      Mismatches(h, rows, |rows|) == []
  {
    var r := AppendAll(h, db, ds);
    var rows := PayloadsOf(Stream(r.events, p));
    var n := |Stream(db.events, p)|;
    forall k | 0 <= k < |rows| ensures !BadAt(h, rows, k) {
      AppendThenVerify(h, db, ds, p, k);
      if k >= n {
        LandedSubset(h, db, ds, p, Landed(h, db, ds, p)[k - n]);
      }
    }
    MismatchesNone(h, rows, |rows|);
  }

  /** Legacy rows decode but carry no hash. */
  predicate Legacy(rows: seq<Stored>) {
    forall k :: 0 <= k < |rows| ==> rows[k].Some? && Extract(rows[k].value).None?
  }

  lemma LegacyIsClean(h: Digest, rows: seq<Stored>)
    requires Legacy(rows)
    ensures Clean(h, rows)
  {
  }
  /** A stream written before hashing began: its rows are never reported, and appends to it verify clean. */
  lemma LegacyThenAppends(h: Digest, db: Database, ds: seq<Draft>, p: nat)
    requires Valid(db) && p < |db.projects| && Digests(h)
    requires Legacy(PayloadsOf(Stream(db.events, p))) && AllMetaOk(ds)
    ensures var rows := PayloadsOf(Stream(AppendAll(h, db, ds).events, p));
      Mismatches(h, rows, |rows|) == []
  {
    LegacyIsClean(h, PayloadsOf(Stream(db.events, p)));
    AppendsVerifyClean(h, db, ds, p);
  }
}
