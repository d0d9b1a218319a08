/** Deltas that complete a task and start it again: what resuming page by page still keeps (`core/state_engine.py`). */
module UnsettledPages {
  import opened Wrappers
  import opened Json
  import opened OrderedDict
  import opened Events
  import opened Sequences
  import opened StateMachine
  import opened StateEngine
  import opened ReplayProofs
  import opened ReplayMeaning
  import opened SnapshotReload
  import opened Resume

  /** The same id-to-label map, in whatever order. */
  ghost predicate SamePairs(d: Dict<string, string>, e: Dict<string, string>) {
    DistinctKeys(d) && DistinctKeys(e) && forall p :: p in d <==> p in e
  }

  /** No two open references agree on their normalised label. */
  ghost predicate DistinctLabels(norm: Normalizer, refs: Dict<string, string>) {
    forall p, q :: p in refs && q in refs && norm(p.1) == norm(q.1) ==> p == q
  }

  ghost predicate DistinctThroughout(norm: Normalizer, es: seq<Event>) {
    && DistinctLabels(norm, Replay(norm, es).openTaskRefs)
    && (es != [] ==> DistinctThroughout(norm, es[..|es| - 1]))
  }

  /** The open list names open references only, each once, and misses only labels once completed. */
  ghost predicate Lists(s: ProjectState) {
    && NoDuplicates(s.openTasks)
    && (forall x :: x in s.openTasks ==> x in Values(s.openTaskRefs))
    && forall x :: x in Values(s.openTaskRefs) && x !in s.openTasks ==> x in s.completedTasks
  }

  /** A resumed state against the replayed one: the same but for the order of the references and the open list. */
  ghost predicate Loosely(s: ProjectState, full: ProjectState) {
    && s == full.(openTasks := s.openTasks, openTaskRefs := s.openTaskRefs)
    && SamePairs(s.openTaskRefs, full.openTaskRefs)
    && Lists(s)
  }

  // ---- One event ----

  lemma SameKeys(d: Dict<string, string>, e: Dict<string, string>, k: string)
    requires SamePairs(d, e)
    ensures HasKey(d, k) <==> HasKey(e, k)
  {
    if HasKey(d, k) {
      assert d[Find(d, k).value] in e;
    }
    if HasKey(e, k) {
      assert e[Find(e, k).value] in d;
    }
  }

  lemma SameLabelKey(norm: Normalizer, d: Dict<string, string>, e: Dict<string, string>, title: string, key: string)
    requires SamePairs(d, e) && DistinctLabels(norm, e)
    ensures RefWithLabel(norm, d, title, key) == RefWithLabel(norm, e, title, key)
  {
    hide RefWithLabel;
    FirstWithLabel(norm, d, title, key);
    FirstWithLabel(norm, e, title, key);
    if i :| 0 <= i < |d| && norm(d[i].1) == title {
      assert d[i] in e;
    } else if j :| 0 <= j < |e| && norm(e[j].1) == title {
      assert e[j] in d;
    }
  }

  lemma SameClosedKey(norm: Normalizer, d: Dict<string, string>, e: Dict<string, string>, key: string, task: string)
    requires SamePairs(d, e) && DistinctLabels(norm, e)
    ensures ClosedKey(norm, d, key, task) == ClosedKey(norm, e, key, task)
  {
    hide RefWithLabel, AlternateRefKey, HasKey;
    SameKeys(d, e, key);
    SameKeys(d, e, AlternateRefKey(norm, key));
    SameLabelKey(norm, d, e, norm(task), key);
  }

  lemma PopKeepsPairs(d: Dict<string, string>, e: Dict<string, string>, k: string)
    requires SamePairs(d, e)
    ensures SamePairs(Pop(d, k), Pop(e, k))
  {
    hide Pop;
    forall p ensures p in Pop(d, k) <==> p in Pop(e, k) {
      PopMember(d, k, p);
      PopMember(e, k, p);
    }
  }

  lemma PutMember(d: Dict<string, string>, k: string, v: string, p: (string, string))
    requires DistinctKeys(d)
    ensures p in Put(d, k, v) <==> p == (k, v) || (p in d && p.0 != k)
  {
    var at := Find(d, k);
    if at.Some? {
      var r := Put(d, k, v);
      assert r[at.value] == (k, v);
      forall i | 0 <= i < |d| && i != at.value ensures r[i] == d[i] && d[i].0 != k {
      }
    }
  }

  lemma PutKeepsPairs(d: Dict<string, string>, e: Dict<string, string>, k: string, v: string)
    requires SamePairs(d, e)
    ensures SamePairs(Put(d, k, v), Put(e, k, v))
  {
    hide Put;
    forall p ensures p in Put(d, k, v) <==> p in Put(e, k, v) {
      PutMember(d, k, v, p);
      PutMember(e, k, v, p);
    }
  }

  lemma FreshListing(norm: Normalizer, refs: Dict<string, string>, e: Dict<string, string>)
    requires SamePairs(refs, e) && DistinctLabels(norm, e)
    ensures NoDuplicates(Values(refs))
  {
    var titles := Values(refs);
    forall i, j | 0 <= i < j < |titles| ensures titles[i] != titles[j] {
      assert refs[i] in e && refs[j] in e && refs[i] != refs[j];
    }
  }

  lemma StepLoosely(norm: Normalizer, s: ProjectState, full: ProjectState, e: Event)
    requires Loosely(s, full)
    requires DistinctLabels(norm, full.openTaskRefs) && DistinctLabels(norm, Step(norm, full, e).openTaskRefs)
    ensures Loosely(Step(norm, s, e), Step(norm, full, e))
  {
    hide EffectOf, ClosedKey, DistinctLabels, SamePairs, Put, Pop, RemoveFirst, UsageRecorded;
    var d, f := s.openTaskRefs, full.openTaskRefs;
    var r, g := Step(norm, s, e), Step(norm, full, e);
    match EffectOf(norm, e) {
      case OpenTask(key, task) =>
        PutKeepsPairs(d, f, key, task);
        FreshListing(norm, r.openTaskRefs, g.openTaskRefs);
      case CompleteTask(key, task) =>
        SameClosedKey(norm, d, f, key, task);
        PopKeepsPairs(d, f, ClosedKey(norm, f, key, task));
        FreshListing(norm, r.openTaskRefs, g.openTaskRefs);
      case DropTask(key) =>
        PopKeepsPairs(d, f, key);
        FreshListing(norm, r.openTaskRefs, g.openTaskRefs);
      case _ =>
    }
  }

  // ---- Loading ----

  /** References for a list of distinct labels that are all stored. */
  lemma {:induction false} RelinkListed(norm: Normalizer, tasks: seq<string>, stored: Dict<string, string>)
    requires DistinctKeys(stored) && (forall p :: p in stored ==> p.0 != "")
    requires NoDuplicates(tasks) && forall x :: x in tasks ==> x in Values(stored)
    ensures Linked(Relink(norm, tasks, stored), tasks, stored)
  {
    hide FirstFree, Put;
    if tasks != [] {
      var front, title := tasks[..|tasks| - 1], tasks[|tasks| - 1];
      RelinkListed(norm, front, stored);
      var refs := Relink(norm, front, stored);
      LabelUntaken(refs, front, title);
      LabelStored(stored, title);
      UntakenKey(refs, stored, title);
      KeysOfMember(stored, title, KeysOf(stored, title)[0]);
      LinkOne(refs, front, stored, KeysOf(stored, title)[0], title);
      assert tasks == front + [title];
    }
  }

  lemma LabelUntaken(refs: Dict<string, string>, tasks: seq<string>, title: string)
    requires Values(refs) == tasks && title !in tasks
    ensures KeysOf(refs, title) == []
  {
    forall i | 0 <= i < |refs| ensures refs[i].1 != title {
      assert tasks[i] == refs[i].1;
    }
    KeysOfNone(refs, title);
  }

  lemma LabelStored(stored: Dict<string, string>, title: string)
    requires title in Values(stored)
    ensures KeysOf(stored, title) != []
  {
    var i :| 0 <= i < |stored| && Values(stored)[i] == title;
    assert stored[i] == (stored[i].0, title);
    KeysOfMember(stored, title, stored[i].0);
  }

  /** Filling in what is missing from a part of the stored references gives all of them. */
  lemma {:induction false} FillMember(refs: Dict<string, string>, part: Dict<string, string>,
                                      stored: Dict<string, string>, p: (string, string))
    requires DistinctKeys(stored) && DistinctKeys(refs)
    requires (forall q :: q in refs ==> q in stored) && (forall q :: q in part ==> q in stored)
    ensures DistinctKeys(FillMissing(refs, part))
    ensures p in FillMissing(refs, part) <==> p in refs || p in part
  {
    if part != [] {
      var front, last := part[..|part| - 1], part[|part| - 1];
      assert part == front + [last];
      FillMember(refs, front, stored, p);
      var before := FillMissing(refs, front);
      if HasKey(before, last.0) {
        var q := before[Find(before, last.0).value];
        FillMember(refs, front, stored, q);
        assert last in stored && q in stored;
        OneValuePerKey(stored, last.0, last.1, q.1);
      }
    }
  }

  lemma PartOfStored(refs: Dict<string, string>, stored: Dict<string, string>)
    requires forall title :: KeysOf(refs, title) <= KeysOf(stored, title)
    ensures forall p :: p in refs ==> p in stored
  {
    forall p | p in refs ensures p in stored {
      KeysOfMember(refs, p.1, p.0);
      assert KeysOf(refs, p.1) <= KeysOf(stored, p.1);
      KeysOfMember(stored, p.1, p.0);
    }
  }

  /** A snapshot whose list misses labels loads with every reference it stores. */
  lemma LoadLoosely(norm: Normalizer, s: ProjectState, full: ProjectState)
    requires Loosely(s, full) && WellFormed(full)
    ensures Loosely(FromDict(norm, s), full)
  {
    hide KeysOf, Relink, FillMissing;
    var stored := s.openTaskRefs;
    var refs := Relink(norm, s.openTasks, stored);
    RelinkListed(norm, s.openTasks, stored);
    PartOfStored(refs, stored);
    var all := FillMissing(refs, stored);
    forall p ensures DistinctKeys(all) && (p in all <==> p in stored) {
      FillMember(refs, stored, stored, p);
    }
    SameLabels(all, stored);
  }

  lemma SameLabels(d: Dict<string, string>, e: Dict<string, string>)
    requires forall p :: p in d <==> p in e
    ensures forall x :: x in Values(d) <==> x in Values(e)
  {
    forall x | x in Values(d) ensures x in Values(e) {
      var i :| 0 <= i < |d| && Values(d)[i] == x;
      assert d[i] in e;
      var j :| 0 <= j < |e| && e[j] == d[i];
      assert Values(e)[j] == x;
    }
    forall x | x in Values(e) ensures x in Values(d) {
      var i :| 0 <= i < |e| && Values(e)[i] == x;
      assert e[i] in d;
      var j :| 0 <= j < |d| && d[j] == e[i];
      assert Values(d)[j] == x;
    }
  }

  // ---- One page ----

  lemma {:induction false} RunLoosely(norm: Normalizer, s: ProjectState, a: seq<Event>, b: seq<Event>)
    requires Loosely(s, Replay(norm, a)) && Ids(a) !! Ids(b) && DistinctThroughout(norm, a + b)
    ensures Loosely(Run(norm, Fresh(s), b).state, Replay(norm, a + b))
  {
    hide Step, Loosely, DistinctLabels;
    if b == [] {
      assert a + b == a;
    } else {
      var front, e := b[..|b| - 1], b[|b| - 1];
      assert b == front + [e] && (a + b)[..|a + b| - 1] == a + front;
      IdsSplit(front, [e]);
      RunLoosely(norm, s, a, front);
      RunApplied(norm, Fresh(s), front);
      RunApplied(norm, Fresh(EMPTY_STATE), a + front);
      IdsSplit(a, front);
      assert e in b && e.id in Ids(b);
      var resumed, full := Run(norm, Fresh(s), front).state, Replay(norm, a + front);
      if e.id !in Ids(front) {
        StepLoosely(norm, resumed, full, e);
      }
    }
  }

  lemma WithoutKeepsDistinct(open: seq<string>, done: seq<string>)
    requires NoDuplicates(open)
    ensures NoDuplicates(Without(open, done))
  {
    if done != [] {
      WithoutKeepsDistinct(open, done[..|done| - 1]);
      RemoveAllKeepsDistinct(Without(open, done[..|done| - 1]), done[|done| - 1]);
    }
  }

  lemma RemoveAllKeepsDistinct(s: seq<string>, x: string)
    requires NoDuplicates(s)
    ensures NoDuplicates(RemoveAll(s, x))
  {
    if s != [] {
      var front, last := s[..|s| - 1], s[|s| - 1];
      RemoveAllKeepsDistinct(front, x);
      RemoveAllMember(front, x, last);
    }
  }

  lemma FilteredLoosely(s: ProjectState, full: ProjectState, done: seq<string>)
    requires Loosely(s, full) && forall x :: x in done ==> x in s.completedTasks
    ensures Loosely(s.(openTasks := Without(s.openTasks, done)), full)
  {
    hide Without, Values;
    WithoutKeepsDistinct(s.openTasks, done);
    forall x ensures x in Without(s.openTasks, done) <==> x in s.openTasks && x !in done {
      WithoutMember(s.openTasks, done, x);
    }
  }

  /** What the merger makes of a page: the final state, less the open labels the page completed. */
  lemma ResumedFields(norm: Normalizer, base: StateDict, b: seq<Event>, git: Payload)
    requires b != [] && NoDuplicates(base.state.completedTasks)
    requires forall u :: u in base.state.toolUsage ==> u.eventId !in Ids(b)
    ensures
      var final, done := Run(norm, Fresh(FromDict(norm, base.state)), b).state, Replay(norm, b).completedTasks;
      && Resumed(norm, base, b, git) ==
         StateDict(final.(openTasks := Without(final.openTasks, done)), base.eventCount + |b|, git)
      && forall x :: x in done ==> x in final.completedTasks
  {
    hide FromDict, Without, Dedupe, Step;
    var start := FromDict(norm, base.state);
    FromDictKeepsRest(norm, base.state);
    RunExtends(norm, Fresh(start), b);
    RunNamesEvent(norm, Fresh(start), b);
    var done := Replay(norm, b).completedTasks;
    forall x | x in done ensures x in Run(norm, Fresh(start), b).state.completedTasks {
      DedupeMember(start.completedTasks + done, x);
    }
  }

  lemma FromDictKeepsRest(norm: Normalizer, s: ProjectState)
    ensures FromDict(norm, s) == s.(openTaskRefs := FromDict(norm, s).openTaskRefs)
  {
  }

  lemma ResumeLoosely(norm: Normalizer, base: StateDict, a: seq<Event>, b: seq<Event>, git: Payload)
    requires Loosely(base.state, Replay(norm, a)) && base.eventCount == |a| && base.git == git
    requires Ids(a) !! Ids(b) && DistinctThroughout(norm, a + b)
    ensures
      var r := Resumed(norm, base, b, git);
      Loosely(r.state, Replay(norm, a + b)) && r.eventCount == |a + b| && r.git == git
  {
    hide FromDict, Without, Loosely;
    if b == [] {
      assert a + b == a;
    } else {
      BaseFits(norm, base.state, a, b);
      LoadLoosely(norm, base.state, Replay(norm, a));
      RunLoosely(norm, FromDict(norm, base.state), a, b);
      ResumedFields(norm, base, b, git);
      FilteredLoosely(Run(norm, Fresh(FromDict(norm, base.state)), b).state, Replay(norm, a + b),
                      Replay(norm, b).completedTasks);
    }
  }

  lemma BaseFits(norm: Normalizer, s: ProjectState, a: seq<Event>, b: seq<Event>)
    requires Loosely(s, Replay(norm, a)) && Ids(a) !! Ids(b)
    ensures WellFormed(Replay(norm, a)) && NoDuplicates(s.completedTasks)
    ensures forall u :: u in s.toolUsage ==> u.eventId !in Ids(b)
  {
    RunWellFormed(norm, Fresh(EMPTY_STATE), a);
    RunUsage(norm, a);
  }

  // ---- Any number of pages ----

  ghost predicate NewIds(a: seq<Event>, pages: seq<seq<Event>>) {
    pages == [] ||
    (var front, page := pages[..|pages| - 1], pages[|pages| - 1];
     NewIds(a, front) && Ids(a + Flatten(front)) !! Ids(page))
  }

  lemma {:induction false} DistinctBefore(norm: Normalizer, a: seq<Event>, b: seq<Event>)
    requires DistinctThroughout(norm, a + b)
    ensures DistinctThroughout(norm, a)
  {
    if b == [] {
      assert a + b == a;
    } else {
      assert (a + b)[..|a + b| - 1] == a + b[..|b| - 1];
      DistinctBefore(norm, a, b[..|b| - 1]);
    }
  }

  lemma StartsLoosely(norm: Normalizer, a: seq<Event>)
    requires DistinctThroughout(norm, a)
    ensures Loosely(Replay(norm, a), Replay(norm, a))
  {
    RunWellFormed(norm, Fresh(EMPTY_STATE), a);
    FreshListing(norm, Replay(norm, a).openTaskRefs, Replay(norm, a).openTaskRefs);
  }

  /** Resuming through any pages at all, settled or not, agrees with the full replay on every field but the
      open list and the order of the references, as long as no two open labels ever look alike: the id-to-label
      map is the same, and the open list misses only labels that were completed before. */
  lemma {:induction false} AnyPagesKeepTheMap(norm: Normalizer, a: seq<Event>, pages: seq<seq<Event>>, git: Payload)
    requires NewIds(a, pages) && DistinctThroughout(norm, a + Flatten(pages))
    ensures
      var r := ResumedByPages(norm, Built(norm, a, git), pages, git);
      && Loosely(r.state, Replay(norm, a + Flatten(pages)))
      && r.eventCount == |a + Flatten(pages)| && r.git == git
  {
    hide Resumed, Loosely;
    if pages == [] {
      assert a + Flatten(pages) == a;
      StartsLoosely(norm, a);
    } else {
      var front, page := pages[..|pages| - 1], pages[|pages| - 1];
      assert a + Flatten(pages) == a + Flatten(front) + page;
      DistinctBefore(norm, a + Flatten(front), page);
      AnyPagesKeepTheMap(norm, a, front, git);
      ResumeLoosely(norm, ResumedByPages(norm, Built(norm, a, git), front, git), a + Flatten(front), page, git);
    }
  }

  // ---- When a missing label returns ----

  /** Some event of the page rewrites the open list. */
  ghost predicate Relists(norm: Normalizer, es: seq<Event>) {
    exists e :: e in es && (var x := EffectOf(norm, e); x.OpenTask? || x.CompleteTask? || x.DropTask?)
  }

  lemma RelistsSomething(norm: Normalizer, es: seq<Event>)
    requires Relists(norm, es)
    ensures es != []
  {
  }

  lemma StepRelists(norm: Normalizer, s: ProjectState, e: Event)
    ensures
      var x, r := EffectOf(norm, e), Step(norm, s, e);
      if x.OpenTask? || x.CompleteTask? || x.DropTask? then r.openTasks == Values(r.openTaskRefs)
      else r.openTasks == s.openTasks && r.openTaskRefs == s.openTaskRefs
  {
    hide EffectOf, Put, Pop, ClosedKey;
  }

  lemma FrontDistinctIds(es: seq<Event>)
    requires es != [] && DistinctIds(es)
    ensures DistinctIds(es[..|es| - 1])
  {
  }

  lemma {:induction false} RunRelists(norm: Normalizer, s: ProjectState, es: seq<Event>)
    requires Relists(norm, es) && DistinctIds(es)
    ensures var r := Run(norm, Fresh(s), es).state; r.openTasks == Values(r.openTaskRefs)
  {
    hide EffectOf, Step;
    var front, e := es[..|es| - 1], es[|es| - 1];
    assert es == front + [e];
    var x, before := EffectOf(norm, e), Run(norm, Fresh(s), front);
    StepRelists(norm, before.state, e);
    LastIdIsNew(es);
    FrontDistinctIds(es);
    RunApplied(norm, Fresh(s), front);
    if Relists(norm, front) {
      RunRelists(norm, s, front);
    } else {
      assert x.OpenTask? || x.CompleteTask? || x.DropTask?;
    }
  }

  /** Whatever earlier pages dropped from the open list, a page that touches any task lists every open
      reference again, exactly if it leaves none of the labels it completed open. */
  lemma MissingLabelsReturn(norm: Normalizer, a: seq<Event>, pages: seq<seq<Event>>, page: seq<Event>, git: Payload)
    requires NewIds(a, pages) && Ids(a + Flatten(pages)) !! Ids(page)
    requires DistinctThroughout(norm, a + Flatten(pages) + page)
    requires Relists(norm, page) && DistinctIds(page)
    ensures
      var before := a + Flatten(pages);
      var r := Resumed(norm, ResumedByPages(norm, Built(norm, a, git), pages, git), page, git).state;
      r.openTasks == Values(r.openTaskRefs) <==> Settled(norm, before, page)
  {
    hide Resumed, FromDict, Relists, Values, Without, Loosely;
    var before := a + Flatten(pages);
    var base := ResumedByPages(norm, Built(norm, a, git), pages, git);
    DistinctBefore(norm, before, page);
    AnyPagesKeepTheMap(norm, a, pages, git);
    BaseFits(norm, base.state, before, page);
    RelistsSomething(norm, page);
    ResumedFields(norm, base, page, git);
    LoadLoosely(norm, base.state, Replay(norm, before));
    var start := FromDict(norm, base.state);
    RunLoosely(norm, start, before, page);
    RunRelists(norm, start, page);
    var final := Run(norm, Fresh(start), page).state;
    WithoutNothing(final.openTasks, Replay(norm, page).completedTasks);
    SameOpenLabels(norm, final, before + page);
  }

  lemma SameOpenLabels(norm: Normalizer, s: ProjectState, es: seq<Event>)
    requires Loosely(s, Replay(norm, es))
    ensures forall x :: x in Values(s.openTaskRefs) <==> x in Replay(norm, es).openTasks
  {
    hide Values;
    SameLabels(s.openTaskRefs, Replay(norm, es).openTaskRefs);
    RunWellFormed(norm, Fresh(EMPTY_STATE), es);
  }
}
