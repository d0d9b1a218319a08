/** Resuming from a snapshot against replaying the whole log. */
module Resume {
  import opened Wrappers
  import opened Json
  import opened OrderedDict
  import opened Events
  import opened Sequences
  import opened StateMachine
  import opened StateEngine
  import opened ReplayProofs
  import opened SnapshotReload

  lemma WithoutMember(open: seq<string>, done: seq<string>, x: string)
    ensures x in Without(open, done) <==> x in open && x !in done
  {
    if done != [] {
      var front, last := done[..|done| - 1], done[|done| - 1];
      WithoutMember(open, front, x);
      RemoveAllMember(Without(open, front), last, x);
      assert done == front + [last];
    }
  }

  lemma RemoveAllMember(s: seq<string>, y: string, x: string)
    ensures x in RemoveAll(s, y) <==> x in s && x != y
  {
    if s != [] {
      RemoveAllMember(s[..|s| - 1], y, x);
      assert s == s[..|s| - 1] + [s[|s| - 1]];
    }
  }

  lemma RemoveAllNothing(s: seq<string>, y: string)
    requires y !in s
    ensures RemoveAll(s, y) == s
  {
    if s != [] {
      assert s == s[..|s| - 1] + [s[|s| - 1]];
      RemoveAllNothing(s[..|s| - 1], y);
    }
  }

  /** The merger's last filter changes nothing exactly when no completed label is still open. */
  lemma WithoutNothing(open: seq<string>, done: seq<string>)
    ensures Without(open, done) == open <==> forall x :: x in done ==> x !in open
  {
    if forall x :: x in done ==> x !in open {
      WithoutDisjoint(open, done);
    } else {
      var x :| x in done && x in open;
      WithoutMember(open, done, x);
    }
  }

  lemma WithoutDisjoint(open: seq<string>, done: seq<string>)
    requires forall x :: x in done ==> x !in open
    ensures Without(open, done) == open
  {
    if done != [] {
      var front, last := done[..|done| - 1], done[|done| - 1];
      assert done == front + [last];
      assert last in done;
      WithoutDisjoint(open, front);
      RemoveAllNothing(open, last);
    }
  }

  /** A list without duplicates stays in front of what is appended to it. */
  lemma {:induction false} DedupeStartsWith(a: seq<string>, b: seq<string>)
    requires NoDuplicates(a)
    ensures a <= Dedupe(a + b) && NoDuplicates(Dedupe(a + b))
  {
    if b == [] {
      DedupeDistinct(a);
      assert a + b == a;
    } else {
      hide Dedupe;
      DedupeStartsWith(a, b[..|b| - 1]);
      DedupeSnoc(a + b[..|b| - 1], b[|b| - 1]);
      assert a + b == a + b[..|b| - 1] + [b[|b| - 1]];
    }
  }

  /** Merging any two dictionaries, field by field: a goal, last event and last file of the delta replace the base's
      when there is one; failures, blocks and usage follow the base's; completed labels are the base's, then the
      delta's new ones; the rest is the delta's, less the open labels it completed. */
  lemma MergesFields(base: StateDict, delta: StateDict, x: string)
    requires NoDuplicates(base.state.completedTasks)
    ensures
      var r, b, d := Merged(base, delta).state, base.state, delta.state;
      && (if d.goal.Some? then r.goal == d.goal else r.goal == b.goal)
      && (if d.lastEventId.Some? then r.lastEventId == d.lastEventId else r.lastEventId == b.lastEventId)
      && (if d.lastWorkingFile.Some? then r.lastWorkingFile == d.lastWorkingFile
          else r.lastWorkingFile == b.lastWorkingFile)
      && |r.failures| == |b.failures| + |d.failures|
      && b.failures <= r.failures && r.failures[|b.failures|..] == d.failures
      && |r.blocked| == |b.blocked| + |d.blocked| && b.blocked <= r.blocked && r.blocked[|b.blocked|..] == d.blocked
      && |r.toolUsage| == |b.toolUsage| + |d.toolUsage|
      && b.toolUsage <= r.toolUsage && r.toolUsage[|b.toolUsage|..] == d.toolUsage
      && b.completedTasks <= r.completedTasks && NoDuplicates(r.completedTasks)
      && (x in r.completedTasks <==> x in b.completedTasks || x in d.completedTasks)
      && (x in r.openTasks <==> x in d.openTasks && x !in d.completedTasks)
      && r.workingFiles == d.workingFiles && r.openTaskRefs == d.openTaskRefs
      && Merged(base, delta).eventCount == base.eventCount + delta.eventCount && Merged(base, delta).git == delta.git
  {
    hide Dedupe, Without;
    DedupeMember(base.state.completedTasks + delta.state.completedTasks, x);
    DedupeStartsWith(base.state.completedTasks, delta.state.completedTasks);
    WithoutMember(delta.state.openTasks, delta.state.completedTasks, x);
  }

  /** Full replay, with open labels that the delta completed filtered out. */
  function Expected(norm: Normalizer, a: seq<Event>, b: seq<Event>, git: Payload): StateDict {
    var full := Built(norm, a + b, git);
    full.(state := full.state.(openTasks := Without(full.state.openTasks, Replay(norm, b).completedTasks)))
  }

  /** Resuming any base that loads as the replay of `a` gives the full replay on every field but the
      open-task list, which loses the labels the delta completed. */
  lemma ResumeFromBase(norm: Normalizer, base: StateDict, a: seq<Event>, b: seq<Event>, git: Payload)
    requires Ids(a) !! Ids(b) && b != []
    requires base.eventCount == |a|
    requires FromDict(norm, base.state) == Replay(norm, a).(lastEventId := base.state.lastEventId)
    ensures Resumed(norm, base, b, git) == Expected(norm, a, b, git)
  {
    var m := Run(norm, Fresh(EMPTY_STATE), a);
    var start := FromDict(norm, base.state);
    RunWellFormed(norm, Fresh(EMPTY_STATE), a);
    RunApplied(norm, Fresh(EMPTY_STATE), a);
    RunUsage(norm, a);
    RunSplit(norm, Fresh(EMPTY_STATE), a, b);
    RunForgets(norm, m, b);
    ForgetLastEvent(norm, m.state, start, b);
    RunExtends(norm, Fresh(start), b);
    RunNamesEvent(norm, Fresh(start), b);
    assert |a + b| == |a| + |b|;
  }

  lemma StepForgetsLastEvent(norm: Normalizer, s: ProjectState, id: Option<string>, e: Event)
    ensures Step(norm, s.(lastEventId := id), e) == Step(norm, s, e)
  {
    assert s.(lastEventId := id).(lastEventId := Some(e.id)) == s.(lastEventId := Some(e.id));
  }

  /** The last event id of the start is forgotten at the first event. */
  lemma {:induction false} ForgetLastEvent(norm: Normalizer, s: ProjectState, t: ProjectState, es: seq<Event>)
    requires t == s.(lastEventId := t.lastEventId)
    requires es != []
    ensures Run(norm, Fresh(t), es) == Run(norm, Fresh(s), es)
  {
    if |es| == 1 {
      assert es[..0] == [];
      StepForgetsLastEvent(norm, s, t.lastEventId, es[0]);
    } else {
      ForgetLastEvent(norm, s, t, es[..|es| - 1]);
    }
  }

  /** Incremental resume equals full replay: equal ids on the two sides are the only thing excluded. */
  lemma ResumeEqualsReplay(norm: Normalizer, a: seq<Event>, b: seq<Event>, git0: Payload, git: Payload)
    requires Ids(a) !! Ids(b)
    ensures Resumed(norm, Built(norm, a, git0), b, git) == Expected(norm, a, b, git)
  {
    if b == [] {
      assert a + b == a;
    } else {
      RunWellFormed(norm, Fresh(EMPTY_STATE), a);
      ReloadUnpermuted(norm, Replay(norm, a));
      ResumeFromBase(norm, Built(norm, a, git0), a, b, git);
    }
  }

  /** No label the delta completed is open again at the end. */
  predicate Settled(norm: Normalizer, a: seq<Event>, b: seq<Event>) {
    forall x :: x in Replay(norm, b).completedTasks ==> x !in Replay(norm, a + b).openTasks
  }

  /** The resumed dictionary is the replayed one if and only if the delta is settled. */
  lemma ResumeExact(norm: Normalizer, a: seq<Event>, b: seq<Event>, git0: Payload, git: Payload)
    requires Ids(a) !! Ids(b)
    ensures Resumed(norm, Built(norm, a, git0), b, git) == Built(norm, a + b, git) <==> Settled(norm, a, b)
  {
    ResumeEqualsReplay(norm, a, b, git0, git);
    WithoutNothing(Replay(norm, a + b).openTasks, Replay(norm, b).completedTasks);
  }

  /** The same through the snapshot store, which may permute the stored references. */
  lemma ResumeThroughStore(norm: Normalizer, a: seq<Event>, b: seq<Event>, stored: Dict<string, string>, git0: Payload,
                           git: Payload)
    requires Ids(a) !! Ids(b) && b != []
    requires Stores(stored, Replay(norm, a).openTaskRefs)
    requires KeepsLabelOrder(stored, Replay(norm, a).openTaskRefs)
    ensures
      var snapshot := Built(norm, a, git0);
      Resumed(norm, snapshot.(state := snapshot.state.(openTaskRefs := stored)), b, git) == Expected(norm, a, b, git)
  {
    RunWellFormed(norm, Fresh(EMPTY_STATE), a);
    ReloadExact(norm, Replay(norm, a), stored);
    var snapshot := Built(norm, a, git0);
    ResumeFromBase(norm, snapshot.(state := snapshot.state.(openTaskRefs := stored)), a, b, git);
  }

  // ---- Any number of deltas ----

  function ResumedByPages(norm: Normalizer, base: StateDict, pages: seq<seq<Event>>, git: Payload): StateDict {
    if pages == [] then base
    else Resumed(norm, ResumedByPages(norm, base, pages[..|pages| - 1], git), pages[|pages| - 1], git)
  }

  /** Every page is settled where it lands and brings only new ids. */
  ghost predicate PagesSettled(norm: Normalizer, a: seq<Event>, pages: seq<seq<Event>>) {
    pages == [] ||
    (var front, page := pages[..|pages| - 1], pages[|pages| - 1];
     && PagesSettled(norm, a, front)
     && Ids(a + Flatten(front)) !! Ids(page)
     && Settled(norm, a + Flatten(front), page))
  }

  /** However a settled log is cut into deltas, resuming through all of them is one full replay. */
  lemma {:induction false} ResumeByPages(norm: Normalizer, a: seq<Event>, pages: seq<seq<Event>>, git: Payload)
    requires PagesSettled(norm, a, pages)
    ensures ResumedByPages(norm, Built(norm, a, git), pages, git) == Built(norm, a + Flatten(pages), git)
  {
    hide Built, Resumed, Settled;
    if pages == [] {
      assert a + Flatten(pages) == a;
    } else {
      var front, page := pages[..|pages| - 1], pages[|pages| - 1];
      ResumeByPages(norm, a, front, git);
      ResumeExact(norm, a + Flatten(front), page, git, git);
      assert a + Flatten(pages) == a + Flatten(front) + page;
    }
  }

  function TaskEvent(id: string, kind: EventType, title: string): Event {
    Event(id, kind, 0, None, None, map["task" := Str(title)], None, None, 0, false)
  }

  lemma TaskEventRef(norm: Normalizer, id: string, kind: EventType, title: string)
    requires title != ""
    ensures TaskRef(norm, TaskEvent(id, kind, title)) == Some((LegacyKey(norm, title), title))
  {
    var e := TaskEvent(id, kind, title);
    assert "task_id" !in e.payload by {
      assert |"task_id"| != |"task"|;
    }
    assert Get(e.payload, "task") == Str(title);
  }

  lemma CompletionAlone(norm: Normalizer, id: string, title: string)
    requires title != ""
    ensures ApplyEvent(norm, Fresh(EMPTY_STATE), TaskEvent(id, TaskCompleted, title))
         == Machine(EMPTY_STATE.(lastEventId := Some(id), completedTasks := [title]), {id})
  {
    TaskEventRef(norm, id, TaskCompleted, title);
    assert EffectOf(norm, TaskEvent(id, TaskCompleted, title)) == CompleteTask(LegacyKey(norm, title), title);
  }

  lemma StartOpens(norm: Normalizer, s: ProjectState, id: string, title: string)
    requires title != "" && s.openTaskRefs == []
    ensures var r := Step(norm, s, TaskEvent(id, TaskStarted, title));
      r.openTasks == [title] && r.completedTasks == s.completedTasks
  {
    TaskEventRef(norm, id, TaskStarted, title);
    assert EffectOf(norm, TaskEvent(id, TaskStarted, title)) == OpenTask(LegacyKey(norm, title), title);
    assert Values([(LegacyKey(norm, title), title)]) == [title];
  }

  /** A delta that completes a task and starts it again resumes without it, though replay has it open. */
  lemma ReopenedTaskIsLost(norm: Normalizer)
    ensures
      var b := [TaskEvent("1", TaskCompleted, "X"), TaskEvent("2", TaskStarted, "X")];
      && Replay(norm, [] + b).openTasks == ["X"]
      && Resumed(norm, Built(norm, [], map[]), b, map[]).state.openTasks == []
  {
    var e1, e2 := TaskEvent("1", TaskCompleted, "X"), TaskEvent("2", TaskStarted, "X");
    var b := [e1, e2];
    assert [] + b == b == [e1] + [e2];
    CompletionAlone(norm, "1", "X");
    var m1 := ApplyEvent(norm, Fresh(EMPTY_STATE), e1);
    RunOne(norm, Fresh(EMPTY_STATE), e1);
    RunSplit(norm, Fresh(EMPTY_STATE), [e1], [e2]);
    RunOne(norm, m1, e2);
    assert "1" != "2" by {
      assert "1"[0] != "2"[0];
    }
    StartOpens(norm, m1.state, "2", "X");
    assert Replay(norm, b) == Step(norm, m1.state, e2);
    ResumeEqualsReplay(norm, [], b, map[], map[]);
    assert ["X"][..0] == [];
    assert Without(["X"], ["X"]) == RemoveAll(["X"], "X") == [];
  }
}
