/** The payload hash chain (`events/integrity.py`). */
module Integrity {
  import opened Wrappers
  import opened Json

  const GENESIS := "genesis"
  const HASH_KEY := "integrity_hash"
  const META_KEY := "_meta"

  // Hex digest of the previous hash followed by the canonical text of a payload body. Canonical text
  // determines the payload, so the payload itself stands for it.
  type Digest = (string, Payload) -> string

  // A stored row's payload, or nothing when its text is not a JSON object.
  type Stored = Option<Payload>

  ghost predicate Digests(h: Digest) {
    forall base: string, body: Payload :: h(base, body) != ""
  }

  /** What an ideal digest guarantees: no collisions, no cycles, and never the genesis marker. */
  ghost predicate CollisionFree(h: Digest) {
    && Digests(h)
    && (forall base: string, body: Payload, base': string, body': Payload ::
          h(base, body) == h(base', body') ==> base == base' && body == body')
    && (forall base: string, body: Payload :: h(base, body) != base && h(base, body) != GENESIS)
  }

  function StripMeta(body: Payload): Payload {
    if META_KEY in body && body[META_KEY].Obj? then
      var meta := body[META_KEY].fields - {HASH_KEY};
      if meta != map[] then body[META_KEY := Obj(meta)] else body - {META_KEY}
    else body
  }

  /** `_without_integrity_fields`. */
  function Strip(p: Payload): Payload {
    StripMeta(p - {HASH_KEY})
  }

  function Compute(h: Digest, prev: Option<string>, p: Payload): string {
    h(if prev.Some? && prev.value != "" then prev.value else GENESIS, Strip(p))
  }

  function MetaOf(p: Payload): Payload {
    if META_KEY in p && p[META_KEY].Obj? then p[META_KEY].fields else map[]
  }

  /** `attach_integrity_hash`. */
  function Attach(h: Digest, p: Payload, prev: Option<string>): Payload {
    var out := Strip(p);
    out[META_KEY := Obj(MetaOf(out)[HASH_KEY := Str(Compute(h, prev, out))])]
  }

  /** `extract_integrity_hash`: under `_meta` first, then the legacy top-level field. */
  function Extract(p: Payload): (r: Option<string>)
    ensures r.Some? ==> r.value != ""
  {
    var nested := NonEmptyText(Get(MetaOf(p), HASH_KEY));
    if nested.Some? then nested else NonEmptyText(Get(p, HASH_KEY))
  }

  function ExtractStored(row: Stored): (r: Option<string>)
    ensures r.Some? ==> r.value != ""
  {
    if row.Some? then Extract(row.value) else None
  }

  /** The hash the next event chains from. */
  function Tip(row: Stored): string {
    var stored := ExtractStored(row);
    if stored.Some? then stored.value else GENESIS
  }

  function PrevAt(rows: seq<Stored>, k: nat): string
    requires k <= |rows|
  {
    if k == 0 then GENESIS else Tip(rows[k - 1])
  }

  predicate Bad(h: Digest, prev: string, row: Stored) {
    match row
    case None => true
    case Some(p) =>
      var stored := Extract(p);
      stored.Some? && stored.value != Compute(h, Some(prev), p)
  }

  predicate BadAt(h: Digest, rows: seq<Stored>, k: nat)
    requires k < |rows|
  {
    Bad(h, PrevAt(rows, k), rows[k])
  }

  /** Indices below `n` the verifier reports. */
  function Mismatches(h: Digest, rows: seq<Stored>, n: nat): seq<nat>
    requires n <= |rows|
  {
    if n == 0 then []
    else Mismatches(h, rows, n - 1) + (if BadAt(h, rows, n - 1) then [n - 1] else [])
  }

  method VerifyHashChain(h: Digest, rows: seq<Stored>) returns (mismatches: seq<nat>)
    ensures mismatches == Mismatches(h, rows, |rows|)
  {
    mismatches := [];
    var prev := GENESIS;
    for i := 0 to |rows|
      invariant prev == PrevAt(rows, i)
      invariant mismatches == Mismatches(h, rows, i)
    {
      if rows[i].None? {
        mismatches := mismatches + [i];
        prev := GENESIS;
        continue;
      }
      var payload := rows[i].value;
      var stored := Extract(payload);
      if stored.None? {
        prev := GENESIS;
        continue;
      }
      var expected := Compute(h, Some(prev), payload);
      if stored.value != expected {
        mismatches := mismatches + [i];
      }
      prev := stored.value;
    }
  }

  /** Nothing but an object may sit under `_meta` for the attached hash to verify. */
  predicate MetaOk(p: Payload) {
    META_KEY in p ==> p[META_KEY].Obj?
  }

  lemma KeysDiffer()
    ensures HASH_KEY != META_KEY
  {
    assert |HASH_KEY| != |META_KEY|;
  }

  lemma StripTwice(p: Payload)
    ensures Strip(Strip(p)) == Strip(p)
  {
    KeysDiffer();
    var body := Strip(p);
    assert HASH_KEY !in body;
    assert body - {HASH_KEY} == body;
    if META_KEY in body && body[META_KEY].Obj? {
      assert HASH_KEY !in body[META_KEY].fields;
      assert body[META_KEY].fields - {HASH_KEY} == body[META_KEY].fields;
      assert body[META_KEY := body[META_KEY]] == body;
    }
  }

  /** Attaching stores the digest of the stripped payload over the previous hash. */
  lemma AttachExtracts(h: Digest, p: Payload, prev: Option<string>)
    requires Digests(h)
    ensures Extract(Attach(h, p, prev)) == Some(Compute(h, prev, p))
  {
    StripTwice(p);
    var digest := Compute(h, prev, Strip(p));
    assert digest == Compute(h, prev, p);
    var meta := MetaOf(Strip(p))[HASH_KEY := Str(digest)];
    assert MetaOf(Attach(h, p, prev)) == meta;
    assert Get(meta, HASH_KEY) == Str(digest);
  }

  /** The hash of a payload is the non-empty text under `_meta`, or else the one the payload carries itself. */
  lemma ExtractExactly(p: Payload, hash: string)
    ensures
      var nested := META_KEY in p && p[META_KEY].Obj? && HASH_KEY in p[META_KEY].fields
                    && p[META_KEY].fields[HASH_KEY].Str? && p[META_KEY].fields[HASH_KEY].s != "";
      Extract(p) == Some(hash) <==>
        && hash != ""
        && if nested then p[META_KEY].fields[HASH_KEY] == Str(hash) else HASH_KEY in p && p[HASH_KEY] == Str(hash)
  {
  }

  /** The attached hash disturbs the body exactly when something other than an object was under `_meta`. */
  lemma AttachStrips(h: Digest, p: Payload, prev: Option<string>)
    ensures Strip(Attach(h, p, prev)) == Strip(p) <==> MetaOk(p)
  {
    KeysDiffer();
    StripTwice(p);
    var body := Strip(p);
    var out := Attach(h, p, prev);
    var meta := MetaOf(body)[HASH_KEY := Str(Compute(h, prev, body))];
    assert HASH_KEY !in body;
    assert out == body[META_KEY := Obj(meta)];
    assert out - {HASH_KEY} == out;
    if META_KEY in body && body[META_KEY].Obj? {
      assert HASH_KEY !in body[META_KEY].fields && body[META_KEY].fields != map[];
      assert meta - {HASH_KEY} == body[META_KEY].fields;
      assert out[META_KEY := body[META_KEY]] == body;
      assert Strip(out) == body;
    } else {
      assert meta - {HASH_KEY} == map[];
      assert Strip(out) == out - {META_KEY};
      if META_KEY !in body {
        assert out - {META_KEY} == body;
      } else {
        assert META_KEY !in Strip(out);
      }
    }
    assert MetaOk(p) <==> !(META_KEY in body && !body[META_KEY].Obj?) by {
      if META_KEY in p && !p[META_KEY].Obj? {
        assert body == p - {HASH_KEY};
      }
    }
  }

  /** A freshly attached payload verifies against the hash it was chained from, for any digest. */
  lemma AttachVerifies(h: Digest, p: Payload, prev: Option<string>, base: string)
    requires Digests(h) && MetaOk(p)
    requires base == (if prev.Some? && prev.value != "" then prev.value else GENESIS)
    ensures !Bad(h, base, Some(Attach(h, p, prev)))
  {
    AttachExtracts(h, p, prev);
    AttachStrips(h, p, prev);
    assert base != "";
  }

  /** With a collision-free digest it verifies exactly when `_meta` was absent or an object. */
  lemma AttachVerdict(h: Digest, p: Payload, prev: Option<string>, base: string)
    requires CollisionFree(h)
    requires base == (if prev.Some? && prev.value != "" then prev.value else GENESIS)
    ensures Bad(h, base, Some(Attach(h, p, prev))) <==> !MetaOk(p)
  {
    AttachExtracts(h, p, prev);
    AttachStrips(h, p, prev);
    assert base != "";
  }

  // ---- Where changes show ----

  predicate Clean(h: Digest, rows: seq<Stored>) {
    forall k :: 0 <= k < |rows| ==> !BadAt(h, rows, k)
  }

  predicate Hashed(row: Stored) {
    ExtractStored(row).Some?
  }

  lemma {:induction false} MismatchesMember(h: Digest, rows: seq<Stored>, n: nat, k: nat)
    requires n <= |rows|
    ensures k in Mismatches(h, rows, n) <==> k < n && BadAt(h, rows, k)
  {
    if n > 0 {
      MismatchesMember(h, rows, n - 1, k);
    }
  }

  lemma {:induction false} MismatchesNone(h: Digest, rows: seq<Stored>, n: nat)
    requires n <= |rows|
    requires forall k :: 0 <= k < n ==> !BadAt(h, rows, k)
    ensures Mismatches(h, rows, n) == []
  {
    if n > 0 {
      MismatchesNone(h, rows, n - 1);
    }
  }

  lemma {:induction false} MismatchesOnly(h: Digest, rows: seq<Stored>, n: nat, i: nat)
    requires i < n <= |rows|
    requires forall k :: 0 <= k < n ==> (BadAt(h, rows, k) <==> k == i)
    ensures Mismatches(h, rows, n) == [i]
  {
    hide BadAt;
    assert BadAt(h, rows, n - 1) <==> n - 1 == i;
    if n == i + 1 {
      MismatchesNone(h, rows, i);
      assert Mismatches(h, rows, n) == Mismatches(h, rows, i) + [i];
    } else {
      MismatchesOnly(h, rows, n - 1, i);
      assert Mismatches(h, rows, n) == Mismatches(h, rows, n - 1) + [];
    }
  }

  /** Changing one hashed body under its stored hash is reported at exactly that index. */
  lemma TamperingIsLocalised(h: Digest, rows: seq<Stored>, i: nat, p: Payload)
    requires CollisionFree(h) && Clean(h, rows)
    requires i < |rows| && Hashed(rows[i])
    requires Extract(p) == ExtractStored(rows[i]) && Strip(p) != Strip(rows[i].value)
    ensures var tampered := rows[i := Some(p)];
      Mismatches(h, tampered, |tampered|) == [i]
  {
    var tampered := rows[i := Some(p)];
    forall k | 0 <= k < |tampered| ensures BadAt(h, tampered, k) <==> k == i {
      assert !BadAt(h, rows, k);
      assert PrevAt(tampered, k) == PrevAt(rows, k);
    }
    MismatchesOnly(h, tampered, |tampered|, i);
  }

  /** Removing row `i` of a clean chain shows exactly when a hashed row follows and row `i` or the
      row before it is hashed. */
  predicate DeletionShows(rows: seq<Stored>, i: nat)
    requires i < |rows|
  {
    && i + 1 < |rows| && Hashed(rows[i + 1])
    && (Hashed(rows[i]) || (i > 0 && Hashed(rows[i - 1])))
  }

  lemma CleanTip(h: Digest, rows: seq<Stored>, i: nat)
    requires CollisionFree(h) && Clean(h, rows) && i < |rows| && Hashed(rows[i])
    ensures Tip(rows[i]) != GENESIS
    ensures Tip(rows[i]) != PrevAt(rows, i)
  {
    assert !BadAt(h, rows, i);
    var prev := PrevAt(rows, i);
    assert Tip(rows[i]) == Compute(h, Some(prev), rows[i].value);
    assert prev != "";
  }

  /** Deleting one event is reported at exactly its successor, or not at all. */
  lemma DeletionIsLocalised(h: Digest, rows: seq<Stored>, i: nat)
    requires CollisionFree(h) && Clean(h, rows) && i < |rows|
    ensures var cut := rows[..i] + rows[i + 1..];
      Mismatches(h, cut, |cut|) == if DeletionShows(rows, i) then [i] else []
  {
    var cut := rows[..i] + rows[i + 1..];
    forall k | 0 <= k < |cut| ensures BadAt(h, cut, k) <==> k == i && DeletionShows(rows, i) {
      if k < i {
        assert !BadAt(h, rows, k);
        assert PrevAt(cut, k) == PrevAt(rows, k);
      } else {
        assert !BadAt(h, rows, k + 1);
        if k > i {
          assert PrevAt(cut, k) == PrevAt(rows, k + 1);
        } else {
          SuccessorOfDeleted(h, rows, i);
          assert PrevAt(cut, i) == PrevAt(rows, i);
        }
      }
    }
    if DeletionShows(rows, i) {
      MismatchesOnly(h, cut, |cut|, i);
    } else {
      MismatchesNone(h, cut, |cut|);
    }
  }

  lemma SuccessorOfDeleted(h: Digest, rows: seq<Stored>, i: nat)
    requires CollisionFree(h) && Clean(h, rows) && i + 1 < |rows|
    ensures Bad(h, PrevAt(rows, i), rows[i + 1]) <==> DeletionShows(rows, i)
  {
    var prev, tip := PrevAt(rows, i), Tip(rows[i]);
    assert !BadAt(h, rows, i + 1);
    assert PrevAt(rows, i + 1) == tip;
    assert prev != "" && tip != "";
    if Hashed(rows[i]) {
      CleanTip(h, rows, i);
    }
    if i > 0 && Hashed(rows[i - 1]) {
      CleanTip(h, rows, i - 1);
    }
    if Hashed(rows[i + 1]) {
      var p := rows[i + 1].value;
      assert h(tip, Strip(p)) == Tip(rows[i + 1]);
    }
  }

  predicate AllHashed(rows: seq<Stored>) {
    forall k :: 0 <= k < |rows| ==> Hashed(rows[k])
  }

  /** Equal last hashes mean equal last bodies and equal hashes before them. */
  lemma TipDetermines(h: Digest, a: seq<Stored>, b: seq<Stored>)
    requires CollisionFree(h)
    requires a != [] && Clean(h, a) && AllHashed(a) && b != [] && Clean(h, b) && AllHashed(b)
    requires Tip(a[|a| - 1]) == Tip(b[|b| - 1])
    ensures PrevAt(a, |a| - 1) == PrevAt(b, |b| - 1)
    ensures Strip(a[|a| - 1].value) == Strip(b[|b| - 1].value)
  {
    var m, n := |a| - 1, |b| - 1;
    assert !BadAt(h, a, m) && !BadAt(h, b, n);
    assert PrevAt(a, m) != "" && PrevAt(b, n) != "";
    assert Tip(a[m]) == h(PrevAt(a, m), Strip(a[m].value));
    assert Tip(b[n]) == h(PrevAt(b, n), Strip(b[n].value));
  }

  lemma CleanPrefix(h: Digest, rows: seq<Stored>)
    requires rows != [] && Clean(h, rows) && AllHashed(rows)
    ensures Clean(h, rows[..|rows| - 1]) && AllHashed(rows[..|rows| - 1])
  {
    var front := rows[..|rows| - 1];
    forall k | 0 <= k < |front| ensures !BadAt(h, front, k) {
      assert !BadAt(h, rows, k);
      assert PrevAt(front, k) == PrevAt(rows, k);
    }
  }

  /** Two clean, fully hashed chains that end in the same stored hash carry the same history. */
  lemma {:induction false} SameTipSameHistory(h: Digest, a: seq<Stored>, b: seq<Stored>)
    requires CollisionFree(h)
    requires Clean(h, a) && AllHashed(a) && Clean(h, b) && AllHashed(b)
    requires PrevAt(a, |a|) == PrevAt(b, |b|)
    ensures |a| == |b|
    ensures forall k :: 0 <= k < |a| ==> Strip(a[k].value) == Strip(b[k].value)
  {
    if a == [] {
      if b != [] {
        CleanTip(h, b, |b| - 1);
      }
    } else if b == [] {
      CleanTip(h, a, |a| - 1);
    } else {
      var m, n := |a| - 1, |b| - 1;
      TipDetermines(h, a, b);
      CleanPrefix(h, a);
      CleanPrefix(h, b);
      assert PrevAt(a[..m], m) == PrevAt(a, m) && PrevAt(b[..n], n) == PrevAt(b, n);
      SameTipSameHistory(h, a[..m], b[..n]);
      forall k | 0 <= k < |a| ensures Strip(a[k].value) == Strip(b[k].value) {
        if k < m {
          assert a[..m][k] == a[k] && b[..n][k] == b[k];
        }
      }
    }
  }
}
