/** The revision reducer (`reducers/revision_pkg`): idempotent replay and the contradiction count. */
module Revision {
  import opened Wrappers
  import opened Json
  import opened Events
  import opened Fields
  import opened Sequences

  // `validate_payload` raising no error.
  type Validator = Payload -> bool

  // The checkpoint of a context, its fields as the payload gave them.
  datatype Bucket = Bucket(oldConfidence: Json, newConfidence: Json, reason: Json, evidenceCount: Json, version: Json)

  // The other sub-reducers together: their state is an `R`, and `absorb` is what one event does to it.
  type Absorb<!R> = (R, Event) -> R

  datatype State<R> = State(seen: set<string>, contexts: map<string, Bucket>, trailing: map<string, nat>, rest: R)

  // What a snapshot of one context is computed from.
  datatype Snapshot<R> = Snapshot(evidence: set<string>, bucket: Option<Bucket>, revisions: nat, contradictions: nat,
                                  rest: R)

  function ContextKey(p: Payload): string {
    var key := NonEmptyText(GetOr(p, "context_key", Str("default")));
    if key.Some? then key.value else "default"
  }

  function BucketOf(version: Json, p: Payload): Bucket {
    Bucket(Get(p, "old_confidence"), Get(p, "new_confidence"), Get(p, "reason"), Get(p, "evidence_count"),
           GetOr(p, "template_version", version))
  }

  function TrailingOf(trailing: map<string, nat>, key: string): nat {
    if key in trailing then trailing[key] else 0
  }

  predicate Revises(valid: Validator, e: Event) {
    e.kind == BeliefRevised && valid(e.payload)
  }

  function Effect<R>(valid: Validator, version: Json, absorb: Absorb<R>, s: State<R>, e: Event): State<R> {
    if e.kind == ContradictionDetected then
      s.(trailing := s.trailing + map key | key in s.contexts :: TrailingOf(s.trailing, key) + 1)
    else if e.kind == BeliefRevised then
      if !valid(e.payload) then s
      else
        var key := ContextKey(e.payload);
        s.(contexts := s.contexts[key := BucketOf(version, e.payload)], trailing := s.trailing[key := 0])
    else s.(rest := absorb(s.rest, e))
  }

  /** `apply`: an event whose non-empty id was seen before does nothing. */
  function Apply<R>(valid: Validator, version: Json, absorb: Absorb<R>, s: State<R>, e: Event): State<R> {
    if e.id != "" && e.id in s.seen then s
    else Effect(valid, version, absorb, if e.id != "" then s.(seen := s.seen + {e.id}) else s, e)
  }

  function Run<R>(valid: Validator, version: Json, absorb: Absorb<R>, s: State<R>, es: seq<Event>): State<R> {
    if es == [] then s
    else Apply(valid, version, absorb, Run(valid, version, absorb, s, es[..|es| - 1]), es[|es| - 1])
  }

  function Fresh<R>(rest: R): State<R> {
    State({}, map[], map[], rest)
  }

  function SnapshotOf<R>(s: State<R>, key: string): Snapshot<R> {
    if key in s.contexts then Snapshot(s.seen, Some(s.contexts[key]), 1, TrailingOf(s.trailing, key), s.rest)
    else Snapshot(s.seen, None, 0, 0, s.rest)
  }

  /** `SeenIds`. */
  class SeenIds {
    var seen: set<string>

    constructor ()
      ensures seen == {}
    {
      seen := {};
    }

    method Observe(id: string) returns (again: bool)
      modifies this
      ensures again == (id != "" && id in old(seen))
      ensures seen == old(seen) + (if id != "" then {id} else {})
    {
      if id != "" && id in seen {
        return true;
      }
      if id != "" {
        seen := seen + {id};
      }
      return false;
    }
  }

  /** `BeliefRevisionSubReducer`. */
  class BeliefRevisions {
    const valid: Validator
    const version: Json
    var contexts: map<string, Bucket>
    var trailing: map<string, nat>

    constructor (v: Validator, templateVersion: Json)
      ensures valid == v && version == templateVersion && contexts == map[] && trailing == map[]
    {
      valid, version, contexts, trailing := v, templateVersion, map[], map[];
    }

    method ApplyBeliefRevised(p: Payload)
      modifies this
      ensures !valid(p) ==> contexts == old(contexts) && trailing == old(trailing)
      ensures valid(p) ==>
        contexts == old(contexts)[ContextKey(p) := BucketOf(version, p)] &&
          trailing == old(trailing)[ContextKey(p) := 0]
    {
      if !valid(p) {
        return;
      }
      var key := ContextKey(p);
      contexts := contexts[key := BucketOf(version, p)];
      trailing := trailing[key := 0];
    }

    method IncrementTrailingForAll()
      modifies this`trailing
      ensures trailing == old(trailing) + map key | key in contexts :: TrailingOf(old(trailing), key) + 1
    {
      var left := contexts.Keys;
      while left != {}
        invariant left <= contexts.Keys
        invariant trailing ==
                  old(trailing) + map key | key in contexts.Keys - left :: TrailingOf(old(trailing), key) + 1
      {
        var key :| key in left;
        trailing := trailing[key := TrailingOf(trailing, key) + 1];
        left := left - {key};
      }
    }
  }

  /** `RevisionReducer`, its remaining sub-reducers folded into `rest`. */
  class RevisionReducer<R> {
    const absorb: Absorb<R>
    const seenIds: SeenIds
    const beliefs: BeliefRevisions
    var rest: R

    function View(): State<R>
      reads this, seenIds, beliefs
    {
      State(seenIds.seen, beliefs.contexts, beliefs.trailing, rest)
    }

    constructor (valid: Validator, version: Json, a: Absorb<R>, start: R)
      ensures View() == Fresh(start) && absorb == a && beliefs.valid == valid && beliefs.version == version
      ensures fresh(seenIds) && fresh(beliefs)
    {
      absorb, rest := a, start;
      seenIds := new SeenIds();
      beliefs := new BeliefRevisions(valid, version);
    }

    method ApplyEvent(e: Event)
      modifies this, seenIds, beliefs
      ensures View() == Apply(beliefs.valid, beliefs.version, absorb, old(View()), e)
    {
      var again := seenIds.Observe(e.id);
      if again {
        return;
      }
      if e.kind == ContradictionDetected {
        beliefs.IncrementTrailingForAll();
        return;
      }
      if e.kind == BeliefRevised {
        beliefs.ApplyBeliefRevised(e.payload);
        return;
      }
      rest := absorb(rest, e);
    }

    function TakeSnapshot(key: string): Snapshot<R>
      reads this, seenIds, beliefs
    {
      SnapshotOf(View(), key)
    }
  }

  // ---- Replaying again ----

  /** The log less every event whose non-empty id came before. */
  function Firsts(es: seq<Event>): seq<Event> {
    if es == [] then []
    else
      var front, e := Firsts(es[..|es| - 1]), es[|es| - 1];
      if e.id != "" && e.id in Ids(front) then front else front + [e]
  }

  lemma IdsSnoc(es: seq<Event>, e: Event)
    ensures Ids(es + [e]) == Ids(es) + {e.id}
  {
    IdsSplit(es, [e]);
    assert Ids([e]) == {e.id} by {
      assert e in [e];
    }
  }

  lemma EffectKeepsSeen<R>(valid: Validator, version: Json, absorb: Absorb<R>, s: State<R>, e: Event)
    ensures Effect(valid, version, absorb, s, e).seen == s.seen
  {
    hide ContextKey, BucketOf;
  }

  lemma {:induction false} FirstsKeepIds(es: seq<Event>)
    ensures Ids(Firsts(es)) == Ids(es)
  {
    if es != [] {
      hide Ids;
      var front, e := es[..|es| - 1], es[|es| - 1];
      FirstsKeepIds(front);
      IdsSnoc(front, e);
      IdsSnoc(Firsts(front), e);
      assert es == front + [e];
    }
  }

  lemma ApplySees<R>(valid: Validator, version: Json, absorb: Absorb<R>, s: State<R>, e: Event)
    ensures Apply(valid, version, absorb, s, e).seen == s.seen + (if e.id != "" then {e.id} else {})
  {
    hide Effect;
    EffectKeepsSeen(valid, version, absorb, if e.id != "" then s.(seen := s.seen + {e.id}) else s, e);
  }

  lemma {:induction false} RunSees<R>(valid: Validator, version: Json, absorb: Absorb<R>, rest: R, es: seq<Event>)
    ensures Run(valid, version, absorb, Fresh(rest), es).seen == Ids(es) - {""}
  {
    if es != [] {
      hide Apply, Ids;
      var front, e := es[..|es| - 1], es[|es| - 1];
      RunSees(valid, version, absorb, rest, front);
      ApplySees(valid, version, absorb, Run(valid, version, absorb, Fresh(rest), front), e);
      IdsSnoc(front, e);
      assert es == front + [e];
    }
  }

  /** Only the first event of each id has an effect. */
  lemma {:induction false} RunIsFirsts<R>(valid: Validator, version: Json, absorb: Absorb<R>, rest: R, es: seq<Event>)
    ensures Run(valid, version, absorb, Fresh(rest), es) == Run(valid, version, absorb, Fresh(rest), Firsts(es))
  {
    if es != [] {
      hide Effect, Ids;
      var front, e := es[..|es| - 1], es[|es| - 1];
      var kept := Firsts(front);
      RunIsFirsts(valid, version, absorb, rest, front);
      RunSees(valid, version, absorb, rest, front);
      FirstsKeepIds(front);
      assert (kept + [e])[..|kept|] == kept;
    }
  }

  lemma {:induction false} RunSplit<R>(valid: Validator, version: Json, absorb: Absorb<R>, s: State<R>,
                                       a: seq<Event>, b: seq<Event>)
    ensures Run(valid, version, absorb, s, a + b)
         == Run(valid, version, absorb, Run(valid, version, absorb, s, a), b)
  {
    if b == [] {
      assert a + b == a;
    } else {
      hide Apply;
      assert (a + b)[..|a + b| - 1] == a + b[..|b| - 1];
      RunSplit(valid, version, absorb, s, a, b[..|b| - 1]);
    }
  }

  lemma {:induction false} SeenChangesNothing<R>(valid: Validator, version: Json, absorb: Absorb<R>, s: State<R>,
                                                 es: seq<Event>)
    requires forall e :: e in es ==> e.id != "" && e.id in s.seen
    ensures Run(valid, version, absorb, s, es) == s
  {
    if es != [] {
      hide Effect;
      assert es == es[..|es| - 1] + [es[|es| - 1]];
      SeenChangesNothing(valid, version, absorb, s, es[..|es| - 1]);
    }
  }

  /** Duplicates of events already in the log, in any order and number, change no snapshot of any context. */
  lemma DuplicatesChangeNothing<R>(valid: Validator, version: Json, absorb: Absorb<R>, rest: R, es: seq<Event>,
                                   again: seq<Event>, key: string)
    requires forall e :: e in again ==> e.id != "" && e.id in Ids(es)
    ensures SnapshotOf(Run(valid, version, absorb, Fresh(rest), es + again), key)
         == SnapshotOf(Run(valid, version, absorb, Fresh(rest), es), key)
  {
    hide Run, SnapshotOf;
    RunSplit(valid, version, absorb, Fresh(rest), es, again);
    RunSees(valid, version, absorb, rest, es);
    SeenChangesNothing(valid, version, absorb, Run(valid, version, absorb, Fresh(rest), es), again);
  }

  // ---- What a snapshot counts ----

  /** The context a payload names, or the default one. */
  function ContextNamed(p: Payload): string {
    match FirstText([Get(p, "context_key")])
    case Some(key) => key
    case None => "default"
  }

  /** A checkpoint holds the payload's fields, its version the reducer's own where the payload gives none. */
  predicate Records(b: Bucket, version: Json, p: Payload) {
    && b.oldConfidence == Get(p, "old_confidence") && b.newConfidence == Get(p, "new_confidence")
    && b.reason == Get(p, "reason") && b.evidenceCount == Get(p, "evidence_count")
    && b.version == (if "template_version" in p then p["template_version"] else version)
  }

  lemma RevisionIsRead(version: Json, p: Payload)
    ensures ContextKey(p) == ContextNamed(p) && Records(BucketOf(version, p), version, p)
  {
    OneText(GetOr(p, "context_key", Str("default")));
    OneText(Get(p, "context_key"));
  }

  function IsContradiction(): Event -> bool {
    (e: Event) => e.kind == ContradictionDetected
  }

  /** Index just past the last valid revision of a context. */
  function SinceRevision(valid: Validator, es: seq<Event>, key: string): (r: Option<nat>)
    ensures r.Some? ==>
      0 < r.value <= |es| && Revises(valid, es[r.value - 1]) && ContextNamed(es[r.value - 1].payload) == key
  {
    if es == [] then None
    else if Revises(valid, es[|es| - 1]) && ContextNamed(es[|es| - 1].payload) == key then Some(|es|)
    else SinceRevision(valid, es[..|es| - 1], key)
  }

  lemma {:induction false} NoRevisionAfter(valid: Validator, es: seq<Event>, key: string, i: nat)
    requires i < |es| && Revises(valid, es[i]) && ContextNamed(es[i].payload) == key
    ensures SinceRevision(valid, es, key).Some? && i < SinceRevision(valid, es, key).value
  {
    hide Revises, ContextNamed;
    if i < |es| - 1 {
      NoRevisionAfter(valid, es[..|es| - 1], key, i);
    }
  }

  ghost predicate Counts<R>(valid: Validator, version: Json, s: State<R>, ds: seq<Event>, key: string) {
    var since := SinceRevision(valid, ds, key);
    && (key in s.contexts <==> since.Some?)
    && (since.Some? ==>
          && Records(s.contexts[key], version, ds[since.value - 1].payload)
          && TrailingOf(s.trailing, key) == |Filter(IsContradiction(), ds[since.value..])|)
  }

  lemma SinceSnoc(valid: Validator, ds: seq<Event>, e: Event, key: string)
    ensures SinceRevision(valid, ds + [e], key) ==
            if Revises(valid, e) && ContextNamed(e.payload) == key then Some(|ds| + 1)
            else SinceRevision(valid, ds, key)
    ensures
      var since := SinceRevision(valid, ds, key);
      since.Some? ==>
        && (ds + [e])[since.value - 1] == ds[since.value - 1]
        && |Filter(IsContradiction(), (ds + [e])[since.value..])| ==
           |Filter(IsContradiction(), ds[since.value..])| + (if e.kind == ContradictionDetected then 1 else 0)
  {
    hide ContextNamed, Revises, Filter;
    assert (ds + [e])[..|ds|] == ds;
    var since := SinceRevision(valid, ds, key);
    if since.Some? {
      assert (ds + [e])[since.value..] == ds[since.value..] + [e];
      FilterSnoc(IsContradiction(), ds[since.value..], e);
    }
  }

  lemma RevisionSets<R>(valid: Validator, version: Json, absorb: Absorb<R>, s: State<R>, e: Event, key: string)
    requires Revises(valid, e)
    ensures
      var r := Effect(valid, version, absorb, s, e);
      if ContextNamed(e.payload) == key then
        key in r.contexts && Records(r.contexts[key], version, e.payload) && TrailingOf(r.trailing, key) == 0
      else
        && (key in r.contexts <==> key in s.contexts) && (key in s.contexts ==> r.contexts[key] == s.contexts[key])
        && TrailingOf(r.trailing, key) == TrailingOf(s.trailing, key)
  {
    hide ContextKey, ContextNamed, BucketOf, Records;
    RevisionIsRead(version, e.payload);
  }

  lemma CountsRevision<R>(valid: Validator, version: Json, absorb: Absorb<R>, s: State<R>, ds: seq<Event>, e: Event,
                          key: string)
    requires Counts(valid, version, s, ds, key) && Revises(valid, e)
    ensures Counts(valid, version, Effect(valid, version, absorb, s, e), ds + [e], key)
  {
    hide ContextNamed, Records, Filter, SinceRevision, Effect, TrailingOf;
    SinceSnoc(valid, ds, e, key);
    RevisionSets(valid, version, absorb, s, e, key);
    assert (ds + [e])[|ds| + 1..] == [];
    FilterNone(IsContradiction(), []);
  }

  lemma ContradictionBumps<R>(valid: Validator, version: Json, absorb: Absorb<R>, s: State<R>, e: Event, key: string)
    requires e.kind == ContradictionDetected
    ensures
      var r := Effect(valid, version, absorb, s, e);
      && r.contexts == s.contexts
      && TrailingOf(r.trailing, key) == TrailingOf(s.trailing, key) + (if key in s.contexts then 1 else 0)
  {
  }

  lemma CountsContradiction<R>(valid: Validator, version: Json, absorb: Absorb<R>, s: State<R>, ds: seq<Event>,
                               e: Event, key: string)
    requires Counts(valid, version, s, ds, key) && e.kind == ContradictionDetected
    ensures Counts(valid, version, Effect(valid, version, absorb, s, e), ds + [e], key)
  {
    hide ContextKey, ContextNamed, BucketOf, Records, Filter, SinceRevision, Effect, TrailingOf;
    ContradictionBumps(valid, version, absorb, s, e, key);
    SinceSnoc(valid, ds, e, key);
  }

  lemma CountsStep<R>(valid: Validator, version: Json, absorb: Absorb<R>, s: State<R>, ds: seq<Event>, e: Event,
                      key: string)
    requires Counts(valid, version, s, ds, key)
    ensures Counts(valid, version, Effect(valid, version, absorb, s, e), ds + [e], key)
  {
    hide ContextKey, ContextNamed, BucketOf, Records, Filter, SinceRevision, TrailingOf;
    if Revises(valid, e) {
      CountsRevision(valid, version, absorb, s, ds, e, key);
    } else if e.kind == ContradictionDetected {
      CountsContradiction(valid, version, absorb, s, ds, e, key);
    } else {
      SinceSnoc(valid, ds, e, key);
    }
  }

  lemma {:induction false} FirstsCount<R>(valid: Validator, version: Json, absorb: Absorb<R>, rest: R, es: seq<Event>,
                                          key: string)
    ensures Counts(valid, version, Run(valid, version, absorb, Fresh(rest), es), Firsts(es), key)
  {
    hide Effect, Counts;
    if es == [] {
      NothingCounts(valid, version, rest, key);
    } else {
      var front, e := es[..|es| - 1], es[|es| - 1];
      FirstsCount(valid, version, absorb, rest, front, key);
      RunSees(valid, version, absorb, rest, front);
      FirstsKeepIds(front);
      var s := Run(valid, version, absorb, Fresh(rest), front);
      if !(e.id != "" && e.id in s.seen) {
        var noted := if e.id != "" then s.(seen := s.seen + {e.id}) else s;
        SeenDoesNotCount(valid, version, s, noted.seen, Firsts(front), key);
        CountsStep(valid, version, absorb, noted, Firsts(front), e, key);
      }
    }
  }

  lemma NothingCounts<R>(valid: Validator, version: Json, rest: R, key: string)
    ensures Counts(valid, version, Fresh(rest), [], key)
  {
  }

  lemma SeenDoesNotCount<R>(valid: Validator, version: Json, s: State<R>, seen: set<string>, ds: seq<Event>,
                            key: string)
    requires Counts(valid, version, s, ds, key)
    ensures Counts(valid, version, s.(seen := seen), ds, key)
  {
  }

  /** A context is known exactly when some distinct event validly revised it; its checkpoint is the last such
      event's, and its contradiction count the number of distinct contradiction events after that one. */
  lemma SnapshotCountsContradictions<R>(valid: Validator, version: Json, absorb: Absorb<R>, rest: R, es: seq<Event>,
                                        key: string)
    ensures
      var ds, s := Firsts(es), SnapshotOf(Run(valid, version, absorb, Fresh(rest), es), key);
      var since := SinceRevision(valid, ds, key);
      && (s.bucket.Some? <==> since.Some?)
      && s.revisions == (if since.Some? then 1 else 0)
      && (since.None? ==> s.contradictions == 0)
      && (since.Some? ==>
            && Records(s.bucket.value, version, ds[since.value - 1].payload)
            && s.contradictions == |Filter(IsContradiction(), ds[since.value..])|)
  {
    hide Run, SinceRevision, Filter, Records;
    FirstsCount(valid, version, absorb, rest, es, key);
  }

  // ---- The other sub-reducers ----

  /** Events that are neither contradictions nor revisions. */
  function IsOther(): Event -> bool {
    (e: Event) => e.kind != ContradictionDetected && e.kind != BeliefRevised
  }

  function Absorbed<R>(absorb: Absorb<R>, rest: R, es: seq<Event>): R {
    if es == [] then rest else absorb(Absorbed(absorb, rest, es[..|es| - 1]), es[|es| - 1])
  }

  lemma AbsorbedSnoc<R>(absorb: Absorb<R>, rest: R, es: seq<Event>, e: Event)
    ensures Absorbed(absorb, rest, es + [e]) == absorb(Absorbed(absorb, rest, es), e)
  {
    assert (es + [e])[..|es|] == es;
  }

  lemma ApplyAbsorbs<R>(valid: Validator, version: Json, absorb: Absorb<R>, s: State<R>, e: Event)
    ensures Apply(valid, version, absorb, s, e).rest ==
            if IsOther()(e) && !(e.id != "" && e.id in s.seen) then absorb(s.rest, e) else s.rest
  {
    hide ContextKey, BucketOf, TrailingOf;
  }

  /** They take in every other event of the log, each id once and in order. */
  lemma {:induction false} OthersAreAbsorbed<R>(valid: Validator, version: Json, absorb: Absorb<R>, rest: R,
                                                es: seq<Event>)
    ensures Run(valid, version, absorb, Fresh(rest), es).rest == Absorbed(absorb, rest, Filter(IsOther(), Firsts(es)))
  {
    if es != [] {
      hide Apply, Ids, IsOther, Absorbed, Filter;
      var front, e := es[..|es| - 1], es[|es| - 1];
      OthersAreAbsorbed(valid, version, absorb, rest, front);
      RunSees(valid, version, absorb, rest, front);
      FirstsKeepIds(front);
      ApplyAbsorbs(valid, version, absorb, Run(valid, version, absorb, Fresh(rest), front), e);
      var kept := Filter(IsOther(), Firsts(front));
      FilterSnoc(IsOther(), Firsts(front), e);
      AbsorbedSnoc(absorb, rest, kept, e);
      assert kept + [] == kept;
    } else {
      NothingAbsorbed(absorb, rest);
    }
  }

  lemma NothingAbsorbed<R>(absorb: Absorb<R>, rest: R)
    ensures Absorbed(absorb, rest, Filter(IsOther(), [])) == rest
  {
  }
}
