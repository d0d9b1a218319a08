/** What the hash-chain check says of imported events (`storage/history_repair.py`, `events/integrity.py`). */
module ImportVerdicts {
  import opened Wrappers
  import opened Json
  import opened Events
  import opened Sequences
  import opened Integrity
  import opened EventRepository
  import opened EventLogProofs
  import opened HistoryImport
  import opened HistoryImportProofs

  // ---- One row ----

  lemma SessionKeysDiffer()
    ensures "session_id" != META_KEY && "session_id" != HASH_KEY
    ensures "legacy_session_id" != META_KEY && "legacy_session_id" != HASH_KEY
  {
    assert "session_id"[0] != META_KEY[0] && "session_id"[0] != HASH_KEY[0];
    assert "legacy_session_id"[0] != META_KEY[0] && "legacy_session_id"[0] != HASH_KEY[0];
  }

  /** The object a source payload is read as before its session reference is remapped. */
  function FieldsOf(raw: RawPayload): Payload {
    if raw.Parsed? then raw.fields else map[]
  }

  lemma RemapKeepsOthers(raw: RawPayload, from: int, to: int, key: string)
    requires !raw.Opaque? && key != "session_id" && key != "legacy_session_id"
    ensures
      var r := Remap(raw, from, to);
      r.Some? && (key in r.value <==> key in FieldsOf(raw)) && (key in r.value ==> r.value[key] == FieldsOf(raw)[key])
  {
  }

  lemma RemapKeepsHash(raw: RawPayload, from: int, to: int)
    requires !raw.Opaque?
    ensures Remap(raw, from, to).Some? && Extract(Remap(raw, from, to).value) == Extract(FieldsOf(raw))
  {
    SessionKeysDiffer();
    RemapKeepsOthers(raw, from, to, META_KEY);
    RemapKeepsOthers(raw, from, to, HASH_KEY);
  }

  lemma StripKeeps(p: Payload, key: string)
    requires key != META_KEY && key != HASH_KEY
    ensures key in Strip(p) <==> key in p
    ensures key in p ==> Strip(p)[key] == p[key]
  {
  }

  /** The hashed body changes exactly when remapping changes the payload at all. */
  lemma RemapChangesBody(p: Payload, from: int, to: int)
    ensures Remap(Parsed(p), from, to).Some?
    ensures Strip(Remap(Parsed(p), from, to).value) == Strip(p) <==> Remap(Parsed(p), from, to).value == p
  {
    hide Remap, Strip;
    SessionKeysDiffer();
    RemapKeepsHash(Parsed(p), from, to);
    var r := Remap(Parsed(p), from, to).value;
    StripKeeps(p, "session_id");
    StripKeeps(r, "session_id");
    StripKeeps(p, "legacy_session_id");
    StripKeeps(r, "legacy_session_id");
    if Strip(r) == Strip(p) {
      forall key ensures (key in r <==> key in p) && (key in p ==> r[key] == p[key]) {
        if key != "session_id" && key != "legacy_session_id" {
          RemapKeepsOthers(Parsed(p), from, to, key);
        }
      }
      assert r == p;
    }
  }

  /** Whether an imported row is reported: its text is not an object, or it carries a hash and either the
      remapping changed it or it stands after another hash than the one it was chained from. */
  predicate Reported(raw: RawPayload, from: int, to: int, prev: string, landed: string) {
    match raw
    case Opaque => true
    case Blank => false
    case Parsed(p) => Extract(p).Some? && (Remap(raw, from, to) != Some(p) || landed != prev)
  }

  /** An event that verified at its source after the hash `prev` is reported after the hash `landed` under
      exactly that condition. */
  lemma ImportedRowVerdict(h: Digest, raw: RawPayload, from: int, to: int, prev: string, landed: string)
    requires CollisionFree(h) && prev != "" && landed != ""
    requires raw.Parsed? ==> !Bad(h, prev, Some(raw.fields))
    ensures Bad(h, landed, Remap(raw, from, to)) <==> Reported(raw, from, to, prev, landed)
  {
    if !raw.Opaque? {
      hide Remap, Strip, Extract;
      RemapKeepsHash(raw, from, to);
      if raw.Parsed? {
        RemapChangesBody(raw.fields, from, to);
      } else {
        BlankHasNoHash();
      }
    }
  }

  lemma BlankHasNoHash()
    ensures Extract(map[]).None?
  {
  }

  // ---- A whole import ----

  /** Row `k` of a stream mirrors an event of some source and is reported under exactly the condition on its
      neighbour, whatever hash the event was chained from where it verified. */
  ghost predicate VerdictFollows(h: Digest, r: Database, sources: seq<Source>, rows: seq<EventRow>, k: nat)
    requires k < |rows|
  {
    exists s, e ::
      && s in sources && !s.skip && e in s.events && Mirrors(r.projects, r.sessions, s, e, rows[k])
      && forall prev :: VerifiedAfter(h, e, prev) ==>
           (BadAt(h, PayloadsOf(rows), k) <==>
            Reported(e.payload, e.session, rows[k].session, prev, PrevAt(PayloadsOf(rows), k)))
  }

  predicate VerifiedAfter(h: Digest, e: SourceEvent, prev: string) {
    prev != "" && (e.payload.Parsed? ==> !Bad(h, prev, Some(e.payload.fields)))
  }

  lemma RowVerdictFollows(h: Digest, r: Database, sources: seq<Source>, rows: seq<EventRow>, k: nat)
    requires CollisionFree(h) && k < |rows| && Faithful(r.projects, r.sessions, sources, rows[k])
    ensures VerdictFollows(h, r, sources, rows, k)
  {
    hide Bad, Reported, Remap, CarriesColumns, CarriesPayload;
    var s, e :| s in sources && !s.skip && e in s.events && Mirrors(r.projects, r.sessions, s, e, rows[k]);
    var landed := PrevAt(PayloadsOf(rows), k);
    LandsOnText(PayloadsOf(rows), k);
    CarriedIsImported(e, rows[k]);
    forall prev | VerifiedAfter(h, e, prev)
      ensures BadAt(h, PayloadsOf(rows), k) <==> Reported(e.payload, e.session, rows[k].session, prev, landed)
    {
      ImportedRowVerdict(h, e.payload, e.session, rows[k].session, prev, landed);
    }
  }

  lemma LandsOnText(rows: seq<Stored>, k: nat)
    requires k <= |rows|
    ensures PrevAt(rows, k) != ""
  {
  }

  /** Rows of a stream past those that were there are imported rows. */
  lemma AddedRowsAreImported(db: Database, r: Database, p: nat, k: nat) returns (i: nat)
    requires db.events <= r.events && |Stream(db.events, p)| <= k < |Stream(r.events, p)|
    ensures |db.events| <= i < |r.events| && r.events[i] == Stream(r.events, p)[k]
  {
    var added := r.events[|db.events|..];
    assert r.events == db.events + added;
    FilterConcat(Selects(p, None, None), db.events, added);
    var row := Stream(r.events, p)[k];
    assert row == Stream(added, p)[k - |Stream(db.events, p)|];
    FilterMember(Selects(p, None, None), added, row);
    var j :| 0 <= j < |added| && added[j] == row;
    i := |db.events| + j;
  }

  /** After an import the verdict on every row that was there is unchanged, and every imported row is reported
      exactly when its text is no object, or it is hashed and was changed by the remapping or landed behind
      another hash than its own predecessor's. */
  lemma ImportVerdict(h: Digest, db: Database, sources: seq<Source>, p: nat, k: nat)
    requires Valid(db) && Merged(db, sources).Ok? && CollisionFree(h)
    requires p < |Merged(db, sources).value.0.projects| && k < |Stream(Merged(db, sources).value.0.events, p)|
    ensures
      var r := Merged(db, sources).value.0;
      var was, rows := Stream(db.events, p), Stream(r.events, p);
      && was <= rows
      && (k < |was| ==> (BadAt(h, PayloadsOf(rows), k) <==> BadAt(h, PayloadsOf(was), k)))
      && (k >= |was| ==> VerdictFollows(h, r, sources, rows, k))
  {
    hide Merged, Valid, Stream, BadAt, VerdictFollows, Faithful, CollisionFree;
    ImportIsConservative(db, sources);
    ImportIsFaithful(db, sources);
    var r := Merged(db, sources).value.0;
    var was, rows := Stream(db.events, p), Stream(r.events, p);
    assert StreamExtends(db, r, p);
    if k < |was| {
      assert PayloadsOf(rows)[..|was|] == PayloadsOf(was);
      PrefixKeepsVerdict(h, PayloadsOf(was), PayloadsOf(rows), k);
    } else {
      var i := AddedRowsAreImported(db, r, p, k);
      assert Faithful(r.projects, r.sessions, sources, r.events[i]);
      RowVerdictFollows(h, r, sources, rows, k);
    }
  }
}
